/** The scripted in-memory push provider (internal/deliverer/provider/sandbox). */
module Sandbox {
  import opened Text
  import opened Notifications
  import opened ErrorTrees
  import opened Retry
  import opened Dispatching

  /** An error to return, or None for a scripted success. */
  type Script = seq<Option<Err>>

  /** The answer to call number i (from 0): the script first, then success for every real notification. */
  function Response(script: Script, i: nat, n: Option<Notification>): PushResult {
    if i < |script| && script[i].Some? then Failed(script[i].value)
    else if n.None? then
      Failed(PermanentError("provider-rejected-payload", "", Some(Opaque("nil notification"))))
    else Accepted(Some("sandbox:accepted"))
  }

  /** The notifications whose calls were answered with success, in call order. */
  function DeliveredOf(script: Script, calls: seq<Option<Notification>>): seq<Notification> {
    if calls == [] then []
    else
      var front := calls[..|calls| - 1];
      var n := calls[|calls| - 1];
      DeliveredOf(script, front) + if Response(script, |front|, n).Accepted? then [n.value] else []
  }

  /** Script entries used up by that many calls. */
  function Consumed(script: Script, calls: nat): nat {
    Min(calls, |script|)
  }

  class Provider {
    const scripted: Script
    var pos: nat
    var delivered: seq<Notification>
    ghost var calls: seq<Option<Notification>>

    ghost predicate Valid()
      reads this
    {
      pos == Consumed(scripted, |calls|) && delivered == DeliveredOf(scripted, calls)
    }

    constructor (scripted: Script)
      ensures Valid() && this.scripted == scripted && calls == []
    {
      this.scripted := scripted;
      pos, delivered, calls := 0, [], [];
    }

    /** Answers as the script says for this call number, and keeps what it accepted. */
    method Push(n: Option<Notification>) returns (r: PushResult)
      requires Valid()
      modifies this
      ensures Valid() && calls == old(calls) + [n]
      ensures r == Response(scripted, |old(calls)|, n)
      ensures delivered == old(delivered) + if r.Accepted? then [n.value] else []
    {
      ghost var before := calls;
      calls := calls + [n];
      assert calls[..|before|] == before;
      if pos < |scripted| {
        var err := scripted[pos];
        pos := pos + 1;
        if err.Some? {
          return Failed(err.value);
        }
      }
      if n.None? {
        return Failed(PermanentError("provider-rejected-payload", "", Some(Opaque("nil notification"))));
      }
      delivered := delivered + [n.value];
      r := Accepted(Some("sandbox:accepted"));
    }

    /** A snapshot of what was delivered: everything answered with success, in call order. */
    method Delivered() returns (out: seq<Notification>)
      requires Valid()
      ensures out == DeliveredOf(scripted, calls)
    {
      out := delivered;
    }

    /** The calls made, but a scripted success twice and an unscripted nil notification not at all. */
    function Attempts(): (count: int)
      reads this
      requires Valid()
      ensures count == |calls| + ScriptedSuccesses(scripted, calls) - UnscriptedNils(scripted, calls)
    {
      AttemptsExactly(scripted, calls);
      pos + |delivered|
    }
  }

  function AllSome(ns: seq<Notification>): (calls: seq<Option<Notification>>)
    ensures |calls| == |ns| && forall i | 0 <= i < |ns| :: calls[i] == Some(ns[i])
  {
    seq(|ns|, i requires 0 <= i < |ns| => Some(ns[i]))
  }

  /** The sandbox as the dispatcher's response stream; the dispatcher never pushes a nil notification. */
  function AsStream(script: Script): (nat, Notification) -> PushResult {
    (i: nat, n: Notification) => Response(script, i, Some(n))
  }

  // --- What Attempts() really counts ----------------------------------------------------------

  /** Calls answered by a scripted success: they advance the script and are delivered as well. */
  function ScriptedSuccesses(script: Script, calls: seq<Option<Notification>>): nat {
    if calls == [] then 0
    else
      var i := |calls| - 1;
      ScriptedSuccesses(script, calls[..i]) + if i < |script| && script[i].None? && calls[i].Some? then 1 else 0
  }

  /** Nil notifications after the script: neither scripted nor delivered. */
  function UnscriptedNils(script: Script, calls: seq<Option<Notification>>): nat {
    if calls == [] then 0
    else
      var i := |calls| - 1;
      UnscriptedNils(script, calls[..i]) + if i >= |script| && calls[i].None? then 1 else 0
  }

  /** Attempts() counts a scripted success twice and an unscripted nil notification not at all. */
  lemma {:induction false} AttemptsExactly(script: Script, calls: seq<Option<Notification>>)
    ensures Consumed(script, |calls|) + |DeliveredOf(script, calls)|
         == |calls| + ScriptedSuccesses(script, calls) - UnscriptedNils(script, calls)
  {
    if calls != [] {
      AttemptsExactly(script, calls[..|calls| - 1]);
    }
  }

  lemma {:induction false} NoScriptedSuccessIff(script: Script, ns: seq<Notification>)
    ensures UnscriptedNils(script, AllSome(ns)) == 0
    ensures ScriptedSuccesses(script, AllSome(ns)) == 0 <==>
            forall i | 0 <= i < Consumed(script, |ns|) :: script[i].Some?
  {
    if ns != [] {
      var i := |ns| - 1;
      NoScriptedSuccessIff(script, ns[..i]);
      assert AllSome(ns)[..i] == AllSome(ns[..i]);
    }
  }

  /** On real notifications Attempts() is the number of calls exactly when no nil script entry was reached. */
  lemma AttemptsIsCallsIff(script: Script, ns: seq<Notification>)
    ensures Consumed(script, |ns|) + |DeliveredOf(script, AllSome(ns))| == |ns| <==>
            forall i | 0 <= i < Consumed(script, |ns|) :: script[i].Some?
  {
    AttemptsExactly(script, AllSome(ns));
    NoScriptedSuccessIff(script, ns);
  }

  /** The smallest double count: one call, answered by a scripted success, counts as two. */
  lemma ScriptedSuccessCountsTwice(n: Notification)
    ensures Consumed([None], 1) + |DeliveredOf([None], AllSome([n]))| == 2
  {
    assert AllSome([n])[..0] == [];
  }
}
