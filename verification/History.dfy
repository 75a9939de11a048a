/** Counting in the history of a run. */
module History {
  import opened Prelude
  import opened Api
  import opened MachineFlow
  import opened Fleet

  datatype Kind =
    | ServerMade       // CreateServer succeeded
    | OrderRefused     // CreateServer failed, and may have made a server all the same
    | PollFailed       // GetServer returned an error
    | ServerUnsaved    // a reconcile ended, or crashed, with no patch behind its CreateServer
    | DataMade         // CreateUserData succeeded
    | DataBlank        // ... but without an id
    | DataUnsaved      // a reconcile ended, or crashed, with no patch behind its CreateUserData

  predicate Is(kind: Kind, uid: Uid, e: Event) {
    e.uid == uid &&
    match kind
    case ServerMade => e.Exchange? && e.call.CreateServer? && e.reply.Minted?
    case OrderRefused => e.Exchange? && e.call.CreateServer? && !e.reply.Minted?
    case PollFailed => e.Exchange? && e.call.GetServer? && e.reply.ServerIs? && e.reply.read.ServerFailed?
    case ServerUnsaved => e.Closed? && e.unsavedServer
    case DataMade => e.Exchange? && e.call.CreateUserData? && e.reply.Minted?
    case DataBlank => e.Exchange? && e.call.CreateUserData? && e.reply.Minted? && e.reply.id == ""
    case DataUnsaved => e.Closed? && e.unsavedData
  }

  function Count(log: seq<Event>, kind: Kind, uid: Uid): nat {
    if log == [] then 0
    else Count(log[..|log| - 1], kind, uid) + if Is(kind, uid, log[|log| - 1]) then 1 else 0
  }

  lemma CountAppend(log: seq<Event>, e: Event, kind: Kind, uid: Uid)
    ensures Count(log + [e], kind, uid) == Count(log, kind, uid) + if Is(kind, uid, e) then 1 else 0
  {
    assert (log + [e])[..|log|] == log;
  }

  function One(b: bool): nat { if b then 1 else 0 }

  /** What the history gains from an answer, and from the end of a reconcile. */
  lemma CountAdvance(s: State, reply: Reply, side: Option<string>, run': Run, kind: Kind, uid: Uid)
    requires s.active.Some? && !s.active.value.run.Finished? && Fits(Pending(s.active.value.run), reply)
    ensures var a := s.active.value; var b := Track(a, reply, run');
            Count(Advance(s, reply, side, run').log, kind, uid) ==
            Count(s.log, kind, uid) + One(Is(kind, uid, Exchange(a.uid, Pending(a.run), reply)))
            + One(run'.Finished? && Is(kind, uid, Ending(b)))
  {
    var a := s.active.value;
    var b, e := Track(a, reply, run'), Exchange(a.uid, Pending(a.run), reply);
    CountAppend(s.log, e, kind, uid);
    if run'.Finished? {
      var c := Ending(b);
      CountAppend(s.log + [e], c, kind, uid);
      assert s.log + ([e] + [c]) == s.log + [e] + [c];
    }
  }
}
