/** The Grasshopper test component that sends one action to the host: a
    trigger latched so that one press sends once, a request naming the
    command and the plug-in assembly, and the document name shown from the
    reply. The channel and the component's data access are given as
    inputs: whether the channel opens, and the reply it returns. */
module Client {
  import opened Common

  /** The command the component asks the host to run. */
  const CommandGuid: Guid := Guid("fa988416-732d-47f0-9140-9a8b22306b07")

  /** The host version the channel is opened for. */
  const ServerVersion: string := "Revit2017"

  const ChannelFailure: string := "Did not successfully create a channel"

  /** The number of output parameters the component registers ("Document"). */
  const OutputCount: nat := 1

  // ---------------------------------------------------------------------
  // The latch

  /** One solution: whether the channel is attempted, and the latch after
      it. A rising trigger fires once and disarms; a released trigger
      re-arms; a held trigger changes nothing. */
  function Step(reset: bool, send: bool): (r: (bool, bool))
    ensures r.0 <==> send && reset
    ensures r.1 == !send
  {
    if send && reset then (true, false)
    else if !send then (false, true)
    else (false, reset)
  }

  /** The attempts over a sequence of trigger values, from latch `reset`. */
  function Run(reset: bool, sends: seq<bool>): (fired: seq<bool>)
    ensures |fired| == |sends|
    decreases |sends|
  {
    if sends == [] then []
    else
      var r := Step(reset, sends[0]);
      [r.0] + Run(r.1, sends[1..])
  }

  /** The channel is attempted exactly on a rising edge of the trigger: the
      first solution counts as rising from the initial latch. */
  lemma {:induction false} RunFiresOnRisingEdges(reset: bool, sends: seq<bool>)
    ensures sends != [] ==> Run(reset, sends)[0] == (sends[0] && reset)
    ensures forall k :: 1 <= k < |sends| ==> Run(reset, sends)[k] == (sends[k] && !sends[k - 1])
    decreases |sends|
  {
    if sends != [] {
      var tail := sends[1..];
      RunFiresOnRisingEdges(!sends[0], tail);
      var r := Run(reset, sends);
      assert r == [sends[0] && reset] + Run(!sends[0], tail);
      forall k | 1 <= k < |sends|
        ensures r[k] == (sends[k] && !sends[k - 1])
      {
        assert r[k] == Run(!sends[0], tail)[k - 1];
        assert tail[k - 1] == sends[k];
        if k >= 2 {
          assert tail[k - 2] == sends[k - 1];
        }
      }
    }
  }

  /** Holding the trigger down sends once, however many solutions run. */
  lemma {:induction false} HeldTriggerSendsOnce(n: nat)
    requires n > 0
    ensures Run(true, seq(n, _ => true)) == [true] + seq(n - 1, _ => false)
  {
    var sends := seq(n, _ => true);
    RunFiresOnRisingEdges(true, sends);
    var r := Run(true, sends);
    var e := [true] + seq(n - 1, _ => false);
    forall k | 0 <= k < n ensures r[k] == e[k] {
      if k > 0 {
        assert sends[k] && sends[k - 1];
      }
    }
  }

  // ---------------------------------------------------------------------
  // The request and the reply

  /** A request value: the command GUID itself, or a text. */
  datatype Value = GuidValue(guid: Guid) | TextValue(text: string)

  /** The request: the command GUID and the location of the plug-in
      assembly, and nothing else. */
  function Request(assemblyPath: string): (req: map<string, Value>)
    ensures req.Keys == {"CommandGuid", "AssemblyPath"}
    ensures req["CommandGuid"] == GuidValue(CommandGuid)
    ensures req["AssemblyPath"] == TextValue(assemblyPath)
  {
    map["CommandGuid" := GuidValue(CommandGuid), "AssemblyPath" := TextValue(assemblyPath)]
  }

  /** A `SetData` call: an output index and the value written there. */
  datatype Write = Write(index: nat, value: string)

  /** The write a fired solution makes, as written: the failure message when
      the channel does not open, nothing for a missing reply or one without
      "docName", the document name otherwise -- always to output index 1. */
  function ReplyWritten(created: bool, reply: Option<map<string, string>>): (w: Option<Write>)
    ensures w.Some? ==> w.value.index == 1
    ensures !created ==> w == Some(Write(1, ChannelFailure))
    ensures created ==> (w.Some? <==> reply.Some? && "docName" in reply.value)
  {
    if !created then Some(Write(1, ChannelFailure))
    else if reply.None? || "docName" !in reply.value then None
    else Some(Write(1, reply.value["docName"]))
  }

  /** The same write to the component's one output, index 0. */
  function Reply(created: bool, reply: Option<map<string, string>>): (w: Option<Write>)
    ensures w.Some? ==> w.value.index == 0
    ensures !created ==> w == Some(Write(0, ChannelFailure))
    ensures created && reply.Some? && "docName" in reply.value ==> w == Some(Write(0, reply.value["docName"]))
    ensures created && !(reply.Some? && "docName" in reply.value) ==> w == None
  {
    if !created then Some(Write(0, ChannelFailure))
    else if reply.None? || "docName" !in reply.value then None
    else Some(Write(0, reply.value["docName"]))
  }

  /** What the outputs show after a write: data access refuses an index the
      component did not register. */
  function Shown(w: Option<Write>): (shown: seq<Option<string>>)
    ensures |shown| == OutputCount
  {
    var none := seq(OutputCount, _ => None);
    if w.Some? && w.value.index < OutputCount then none[w.value.index := Some(w.value.value)] else none
  }

  /** As written, a fired solution never shows anything: neither the
      document name nor the channel failure reaches the "Document" output. */
  lemma WrittenReplyNeverShown(created: bool, reply: Option<map<string, string>>)
    ensures Shown(ReplyWritten(created, reply)) == [None]
  {
  }

  /** Concretely: the host answers with a document name and the output
      stays empty. */
  lemma WrittenReplyLost()
    ensures ReplyWritten(true, Some(map["docName" := "Project1"])) == Some(Write(1, "Project1"))
    ensures Shown(ReplyWritten(true, Some(map["docName" := "Project1"]))) == [None]
  {
  }

  /** With index 0 the output shows the document name for an answer that
      has one, the failure message when the channel does not open, and
      nothing otherwise. */
  lemma ReplyShown(created: bool, reply: Option<map<string, string>>)
    ensures !created ==> Shown(Reply(created, reply)) == [Some(ChannelFailure)]
    ensures created && reply.Some? && "docName" in reply.value ==>
              Shown(Reply(created, reply)) == [Some(reply.value["docName"])]
    ensures created && !(reply.Some? && "docName" in reply.value) ==> Shown(Reply(created, reply)) == [None]
  {
  }

  // ---------------------------------------------------------------------
  // The component

  class ActionTestComponent {
    /** Armed: the next rising trigger sends. */
    var reset: bool

    constructor ()
      ensures reset
    {
      reset := true;
    }

    /** `SolveInstance` for trigger `send`. When it fires, the channel is
        attempted for `ServerVersion` (`channelFor`; `opens` is whether it
        opens); an opened channel carries
        the request and returns `reply`; the result is the write made to
        the outputs. */
    method SolveInstance(send: bool, opens: bool, reply: Option<map<string, string>>, assemblyPath: string)
      returns (attempted: bool, channelFor: Option<string>, sent: Option<map<string, Value>>, w: Option<Write>)
      modifies this
      ensures attempted == Step(old(reset), send).0 && reset == Step(old(reset), send).1
      ensures channelFor == (if attempted then Some(ServerVersion) else None)
      ensures sent == (if attempted && opens then Some(Request(assemblyPath)) else None)
      ensures w == (if attempted then Reply(opens, reply) else None)
    {
      attempted, channelFor, sent, w := false, None, None, None;
      if send && reset {
        reset := false;
        attempted := true;
        channelFor := Some(ServerVersion);
        if opens {
          sent := Some(Request(assemblyPath));
          if reply.None? || "docName" !in reply.value {
            return;
          }
          w := Some(Write(0, reply.value["docName"]));
        } else {
          w := Some(Write(0, ChannelFailure));
        }
      } else if !send {
        reset := true;
      }
    }
  }
}
