/** The reusable buffer player: one Web Audio buffer source node at a time,
    replaced by a fresh node whenever it has been stopped, has ended, or its
    buffer is replaced. Source nodes are values; `nodes` lists every node the
    player has created, oldest first, and the position of a node in that
    list is its identity. The last node is the player's `_sourceNode`. */
module BufferPlayers {
  import opened Wrappers

  /** An AudioBuffer object, named by its identity. */
  type AudioBuffer = nat

  /** An AudioNode a source node can be connected to, named by its identity. */
  type AudioDestination = nat

  /** A value given to the `buffer` setter: an AudioBuffer, `null` or `undefined`. */
  datatype BufferArg = Value(buffer: AudioBuffer) | Null | Undefined

  /** The arguments of `start(when, offset)`: context time in seconds and
      offset into the buffer in seconds. */
  datatype Start = Start(when: real, offset: real)

  /** An AudioBufferSourceNode: its buffer (`null` is `None`), the value of
      its `playbackRate` parameter, whether and how it was started and
      stopped, and the nodes it is connected to. */
  datatype SourceNode = SourceNode(
    buffer: Option<AudioBuffer>,
    playbackRate: real,
    started: Option<Start>,
    stoppedAt: Option<real>,
    connections: set<AudioDestination>)

  // The operations of an AudioBufferSourceNode the player uses. The
  // requirements are the conditions under which Web Audio throws an
  // InvalidStateError: the player meets them on every path.

  /** `context.createBufferSource()`: no buffer, rate 1, not started, unconnected. */
  function CreateBufferSource(): SourceNode {
    SourceNode(None, 1.0, None, None, {})
  }

  /** `node.buffer = b` with a non-null `b`; a buffer can be set only once. */
  function SetNodeBuffer(node: SourceNode, b: AudioBuffer): SourceNode
    requires node.buffer.None?
  {
    node.(buffer := Some(b))
  }

  /** `node.playbackRate.value = rate`. */
  function SetNodeRate(node: SourceNode, rate: real): SourceNode {
    node.(playbackRate := rate)
  }

  /** `node.start(when, offset)`; a node can be started only once. */
  function StartNode(node: SourceNode, when: real, offset: real): SourceNode
    requires node.started.None?
  {
    node.(started := Some(Start(when, offset)))
  }

  /** `node.stop(when)`; only a started node can be stopped. */
  function StopNode(node: SourceNode, when: real): SourceNode
    requires node.started.Some?
  {
    node.(stoppedAt := Some(when))
  }

  /** `node.connect(destination)`; connecting twice to one node is one connection. */
  function ConnectNode(node: SourceNode, destination: AudioDestination): SourceNode {
    node.(connections := node.connections + {destination})
  }

  /** `node.disconnect()`: drops every outgoing connection. */
  function DisconnectNode(node: SourceNode): SourceNode {
    node.(connections := {})
  }

  /** The node `_resetSourceNode(discardBuffer)` installs after `previous`
      (none on the first call, from the constructor): a fresh, unstarted
      node with the previous node's playback rate (1 when there was none),
      the previous node's buffer unless it is discarded, and connected to
      exactly the player's destination when it has one. */
  function Successor(previous: Option<SourceNode>, discardBuffer: bool,
                     destination: Option<AudioDestination>): (n: SourceNode)
    ensures n.started.None? && n.stoppedAt.None?
    ensures n.playbackRate == if previous.Some? then previous.value.playbackRate else 1.0
    ensures n.buffer == if previous.Some? && !discardBuffer then previous.value.buffer else None
    ensures n.connections == if destination.Some? then {destination.value} else {}
  {
    var rate := if previous.Some? then previous.value.playbackRate else 1.0;
    var carried := if previous.Some? then previous.value.buffer else None;
    var node := SetNodeRate(CreateBufferSource(), rate);
    var node := if carried.Some? && !discardBuffer then SetNodeBuffer(node, carried.value) else node;
    if destination.Some? then ConnectNode(node, destination.value) else node
  }

  /** A JavaScript value as the `buffer` setter compares it: `undefined`,
      `null` or an object, named by its identity. */
  datatype JsValue = JsUndefined | JsNull | JsObject(id: nat)

  /** The value passed to the setter. */
  function ArgValue(arg: BufferArg): JsValue {
    match arg
    case Value(b) => JsObject(b)
    case Null => JsNull
    case Undefined => JsUndefined
  }

  /** The value the node's `buffer` attribute reads: `null` when unset. */
  function NodeBufferValue(current: Option<AudioBuffer>): JsValue {
    if current.Some? then JsObject(current.value) else JsNull
  }

  /** The setter's test `this._sourceNode.buffer !== buffer`, decided case
      by case on the argument: it is the strict inequality of the two
      values, so `undefined` always differs; and when it fails, the node
      already holds what assigning the argument would store. */
  function DiffersFrom(arg: BufferArg, current: Option<AudioBuffer>): (d: bool)
    ensures d == (ArgValue(arg) != NodeBufferValue(current))
    ensures !d ==> current == Assigned(arg)
  {
    match arg
    case Value(b) => current != Some(b)
    case Null => current.Some?
    case Undefined => true
  }

  /** The buffer a node holds once `arg` has been assigned to a node with no
      buffer: assigning `undefined` stores `null`. */
  function Assigned(arg: BufferArg): Option<AudioBuffer> {
    if arg.Value? then Some(arg.buffer) else None
  }

  class BufferPlayer {
    /** `_startTime`: the time of the last `play`, `None` while unscheduled. */
    var startTime: Option<real>
    /** `_destination`. */
    var destination: Option<AudioDestination>
    /** Every node created so far; the last one is `_sourceNode`. */
    var nodes: seq<SourceNode>

    /** `_sourceNode`. */
    function Current(): SourceNode
      reads this
      requires |nodes| > 0
    {
      nodes[|nodes| - 1]
    }

    /** The player's invariant: the current node exists and has not been
        stopped; the player is scheduled exactly when its node is started,
        at `startTime`; and the node is connected to the destination, or to
        nothing when there is none. */
    ghost predicate Valid()
      reads this
    {
      && |nodes| > 0
      && Current().stoppedAt.None?
      && (startTime.Some? <==> Current().started.Some?)
      && (startTime.Some? ==> Current().started.value.when == startTime.value)
      && (destination.None? ==> Current().connections == {})
      && (destination.Some? ==> destination.value in Current().connections)
    }

    /** The constructor: unscheduled, no destination, one fresh node with rate 1. */
    constructor ()
      ensures Valid()
      ensures startTime.None? && destination.None?
      ensures nodes == [CreateBufferSource()]
    {
      startTime := None;
      destination := None;
      nodes := [];
      new;
      ResetSourceNode(false);
    }

    /** `isScheduled`: the player has a start time, which is to say its node
        has been started. */
    function IsScheduled(): (b: bool)
      reads this
      requires Valid()
      ensures b <==> Current().started.Some?
    {
      startTime.Some?
    }

    /** The `buffer` getter: the current node's buffer, `None` for `null`.
        It is the buffer a reset that keeps the buffer carries to the next
        node, so stopping or an end of playback does not change it. */
    function Buffer(): (b: Option<AudioBuffer>)
      reads this
      requires Valid()
      ensures b == Successor(Some(Current()), false, destination).buffer
    {
      Current().buffer
    }

    /** The `playbackRate` getter, read through the parameter's `value`. It
        is the rate every reset carries to the next node, whether or not the
        buffer is discarded. */
    function PlaybackRate(): (rate: real)
      reads this
      requires Valid()
      ensures forall discard: bool :: rate == Successor(Some(Current()), discard, destination).playbackRate
    {
      Current().playbackRate
    }

    /** `_resetSourceNode(discardBuffer)`: unschedules the player and appends
        the successor of the current node; no existing node is touched. */
    method ResetSourceNode(discardBuffer: bool)
      modifies this
      ensures Valid()
      ensures startTime.None? && destination == old(destination)
      ensures nodes == old(nodes) + [Successor(
        if |old(nodes)| > 0 then Some(old(nodes)[|old(nodes)| - 1]) else None,
        discardBuffer, destination)]
    {
      var buffer: Option<AudioBuffer> := None;
      var playbackRate := 1.0;
      if |nodes| > 0 {
        buffer := Current().buffer;
        playbackRate := Current().playbackRate;
      }
      startTime := None;
      var node := CreateBufferSource();
      node := SetNodeRate(node, playbackRate);
      if buffer.Some? && !discardBuffer {
        node := SetNodeBuffer(node, buffer.value);
      }
      if destination.Some? {
        node := ConnectNode(node, destination.value);
      }
      nodes := nodes + [node];
    }

    /** `play(offsetMillis, when)`. A scheduled player first stops its node at
        `when`, which installs a fresh node carrying buffer and rate; then the
        current node is started at `when`, `offsetMillis / 1000` seconds into
        its buffer, and the player is scheduled at `when`. */
    method Play(offsetMillis: real, when: real)
      requires Valid()
      modifies this
      ensures Valid()
      ensures IsScheduled() && startTime == Some(when)
      ensures Current().started == Some(Start(when, offsetMillis / 1000.0))
      ensures destination == old(destination)
      ensures old(startTime).None? ==>
        nodes == old(nodes)[|old(nodes)| - 1 :=
          StartNode(old(Current()), when, offsetMillis / 1000.0)]
      ensures old(startTime).Some? ==>
        nodes == old(nodes)[|old(nodes)| - 1 := StopNode(old(Current()), when)]
          + [StartNode(Successor(Some(old(Current())), false, destination), when, offsetMillis / 1000.0)]
    {
      if IsScheduled() {
        Stop(when);
      }
      startTime := Some(when);
      nodes := nodes[|nodes| - 1 := StartNode(Current(), when, offsetMillis / 1000.0)];
    }

    /** `stop(when)`. An unscheduled player is left as it is. A scheduled one
        stops its node at `when` and is left unscheduled on a fresh node with
        the same buffer, rate and destination. */
    method Stop(when: real)
      requires Valid()
      modifies this
      ensures Valid()
      ensures !IsScheduled()
      ensures destination == old(destination)
      ensures old(startTime).None? ==> nodes == old(nodes) && startTime == old(startTime)
      ensures old(startTime).Some? ==>
        nodes == old(nodes)[|old(nodes)| - 1 := StopNode(old(Current()), when)]
          + [Successor(Some(old(Current())), false, destination)]
    {
      if IsScheduled() {
        nodes := nodes[|nodes| - 1 := StopNode(Current(), when)];
        ResetSourceNode(false);
      }
    }

    /** `connect(destination)`: records the destination and connects the
        current node to it. A node connected earlier to another destination
        stays connected to it as well. */
    method Connect(d: AudioDestination)
      requires Valid()
      modifies this
      ensures Valid()
      ensures destination == Some(d) && startTime == old(startTime)
      ensures nodes == old(nodes)[|old(nodes)| - 1 := ConnectNode(old(Current()), d)]
    {
      destination := Some(d);
      nodes := nodes[|nodes| - 1 := ConnectNode(Current(), d)];
    }

    /** `disconnect()`: with a destination recorded, forgets it and drops
        every connection of the current node; otherwise does nothing. */
    method Disconnect()
      requires Valid()
      modifies this
      ensures Valid()
      ensures destination.None? && startTime == old(startTime)
      ensures Current().connections == {}
      ensures old(destination).None? ==> nodes == old(nodes)
      ensures old(destination).Some? ==>
        nodes == old(nodes)[|old(nodes)| - 1 := DisconnectNode(old(Current()))]
    {
      if destination.Some? {
        destination := None;
        nodes := nodes[|nodes| - 1 := DisconnectNode(Current())];
      }
    }

    /** The `buffer` setter. A value equal to the current node's buffer
        changes nothing. Any other value installs a fresh node without the
        old buffer, leaving the player unscheduled, and assigns the value to
        it unless it is `null`. The replaced node is not stopped: a node
        that was playing goes on playing. */
    method SetBuffer(arg: BufferArg)
      requires Valid()
      modifies this
      ensures Valid()
      ensures Buffer() == Assigned(arg)
      ensures destination == old(destination)
      ensures !DiffersFrom(arg, old(Buffer())) ==> nodes == old(nodes) && startTime == old(startTime)
      ensures DiffersFrom(arg, old(Buffer())) ==>
        && startTime.None?
        && |nodes| == |old(nodes)| + 1
        && nodes[..|old(nodes)|] == old(nodes)
        && Current() == Successor(Some(old(Current())), true, destination).(buffer := Assigned(arg))
    {
      if DiffersFrom(arg, Current().buffer) {
        ResetSourceNode(true);
        // Only a non-null value is assigned; `undefined` is assigned too, but
        // the nullable attribute stores it as `null`, which the fresh node holds.
        if arg.Value? {
          nodes := nodes[|nodes| - 1 := SetNodeBuffer(Current(), arg.buffer)];
        }
      }
    }

    /** A write to `playbackRate.value` through the getter's AudioParam. */
    method SetPlaybackRate(rate: real)
      requires Valid()
      modifies this`nodes
      ensures Valid()
      ensures PlaybackRate() == rate
      ensures nodes == old(nodes)[|old(nodes)| - 1 := SetNodeRate(old(Current()), rate)]
    {
      nodes := nodes[|nodes| - 1 := SetNodeRate(Current(), rate)];
    }

    /** The `onended` handler every node gets, called for the started node
        `target`. For the current node it resets the player, keeping the
        buffer; for a node already replaced it does nothing. */
    method OnEnded(target: nat)
      requires Valid()
      requires target < |nodes| && nodes[target].started.Some?
      modifies this
      ensures Valid()
      ensures destination == old(destination)
      ensures target != |old(nodes)| - 1 ==> nodes == old(nodes) && startTime == old(startTime)
      ensures target == |old(nodes)| - 1 ==>
        startTime.None? && nodes == old(nodes) + [Successor(Some(old(Current())), false, destination)]
    {
      if target == |nodes| - 1 {
        ResetSourceNode(false);
      }
    }
  }
}
