/**
 * What a run does against the store: the try block's writes are accepted
 * in order up to the first rejected attempt, after which the catch block
 * marks the project failed and rethrows.
 */
module Execution {
  import opened Wrappers
  import opened Errors
  import Schema
  import opened Orchestrator

  /** The first rejected attempt in `[k, n)`, or `n` when every one of them is accepted. */
  function FirstRejected(st: Store, n: nat, k: nat): (r: nat)
    requires k <= n
    ensures k <= r <= n
    ensures forall j :: k <= j < r ==> !Fails(st, j)
    ensures r < n ==> Fails(st, r)
    decreases n - k
  {
    if k == n then n
    else if Fails(st, k) then k
    else FirstRejected(st, n, k + 1)
  }

  /** The first rejected attempt is determined by its defining properties. */
  lemma FirstRejectedUnique(st: Store, n: nat, r: nat)
    requires r <= n
    requires forall j :: 0 <= j < r ==> !Fails(st, j)
    requires r < n ==> Fails(st, r)
    ensures r == FirstRejected(st, n, 0)
  {
  }

  /** Playing a whole block from the start keeps the writes before the first rejection, and records whether there was one. */
  lemma {:induction false} FoldShape(st: Store, ws: seq<Write>)
    ensures var n := FirstRejected(st, |ws|, 0);
      Fold(st, Start, ws) == Machine(ws[..n], n < |ws|)
    decreases |ws|
  {
    var n := FirstRejected(st, |ws|, 0);
    if |ws| == 0 {
      assert ws[..0] == ws;
    } else {
      var init := ws[..|ws| - 1];
      FoldShape(st, init);
      var q := FirstRejected(st, |init|, 0);
      assert Fold(st, Start, ws) == Step(st, Fold(st, Start, init), ws[|ws| - 1]);
      if q < |init| {
        FirstRejectedUnique(st, |ws|, q);
        assert init[..q] == ws[..q];
      } else if Fails(st, |init|) {
        FirstRejectedUnique(st, |ws|, |init|);
        assert init[..q] == ws[..|init|];
      } else {
        FirstRejectedUnique(st, |ws|, |ws|);
        assert init[..q] + [ws[|ws| - 1]] == ws[..|ws|];
      }
    }
  }

  /** The shape of a run: success with every write, or a prefix of the writes, possibly followed by `failed`. */
  lemma ExecuteShape(s: Script, st: Store)
    ensures var r := Execute(s, st);
      r.outcome.Succeeded? <==> s.ending.Finished? && forall k :: 0 <= k < |s.writes| ==> !Fails(st, k)
    ensures var r := Execute(s, st);
      r.outcome.Succeeded? ==>
        r.trace == s.writes && r.outcome == Succeeded(s.ending.buildingsCreated, s.ending.phases)
    ensures var r := Execute(s, st); var n := FirstRejected(st, |s.writes|, 0);
      r.outcome.Rethrown? ==>
        r.trace == s.writes[..n] || r.trace == s.writes[..n] + [SetStatus(Schema.Failed, None)]
  {
    FoldShape(st, s.writes);
    var n := FirstRejected(st, |s.writes|, 0);
    if n < |s.writes| {
      assert Fails(st, n);
    } else {
      assert s.writes[..n] == s.writes;
    }
  }

  /** A rethrown run ends with the catch block's `failed` write exactly when the store accepts that attempt. */
  lemma CatchLands(s: Script, st: Store)
    ensures var r := Execute(s, st); var n := FirstRejected(st, |s.writes|, 0);
      var c := if n < |s.writes| then n + 1 else n;
      r.outcome.Rethrown? ==>
        (!Fails(st, c) ==> r.trace == s.writes[..n] + [SetStatus(Schema.Failed, None)])
        && (Fails(st, c) ==> r.trace == s.writes[..n])
  {
    ExecuteFacts(s, st);
  }

  /**
   * The observable run: it succeeds exactly when the try block returns and
   * every write it attempts is accepted, and then it has made all of them.
   * Otherwise it has made the writes before the first rejection and
   * rethrows. The catch block's `failed` write is the attempt after the
   * rejected one (or after the last write, when the block itself threw):
   * when that attempt is accepted the status is appended and the error that
   * entered the catch block escapes; when it is rejected nothing is
   * appended and the store's own error escapes.
   */
  lemma ExecuteFacts(s: Script, st: Store)
    ensures var r := Execute(s, st);
      r.outcome.Succeeded? <==> s.ending.Finished? && forall k :: 0 <= k < |s.writes| ==> !Fails(st, k)
    ensures var r := Execute(s, st);
      r.outcome.Succeeded? ==>
        r.trace == s.writes && r.outcome == Succeeded(s.ending.buildingsCreated, s.ending.phases)
    ensures var r := Execute(s, st); var n := FirstRejected(st, |s.writes|, 0);
      r.outcome.Rethrown? ==>
        r.trace == s.writes[..n] || r.trace == s.writes[..n] + [SetStatus(Schema.Failed, None)]
    ensures var r := Execute(s, st); var n := FirstRejected(st, |s.writes|, 0);
      var c := if n < |s.writes| then n + 1 else n;
      r.outcome.Rethrown? && !Fails(st, c) ==>
        && r.trace == s.writes[..n] + [SetStatus(Schema.Failed, None)]
        && (if n < |s.writes| then r.outcome.error == WriteError(st)
            else s.ending.Threw? && r.outcome.error == s.ending.error)
    ensures var r := Execute(s, st); var n := FirstRejected(st, |s.writes|, 0);
      var c := if n < |s.writes| then n + 1 else n;
      r.outcome.Rethrown? && Fails(st, c) ==> r.trace == s.writes[..n] && r.outcome.error == WriteError(st)
  {
    ExecuteShape(s, st);
    FoldShape(st, s.writes);
  }

  /** With the store down, the first write throws, and so does the catch block's: nothing is written. */
  lemma StoreDown(s: Script, st: Store)
    requires !st.available && |s.writes| > 0
    ensures Execute(s, st) == Run([], Rethrown(DatabaseNotAvailable))
  {
    FoldShape(st, s.writes);
    FirstRejectedUnique(st, |s.writes|, 0);
  }

  /**
   * With every write accepted, a returning try block succeeds with all of
   * its writes, and a throwing one leaves its writes followed by the
   * `failed` status and rethrows its own error.
   */
  lemma Reliable(s: Script)
    ensures s.ending.Finished? ==>
      Execute(s, Store(true, {})) == Run(s.writes, Succeeded(s.ending.buildingsCreated, s.ending.phases))
    ensures s.ending.Threw? ==>
      Execute(s, Store(true, {})) == Run(s.writes + [SetStatus(Schema.Failed, None)], Rethrown(s.ending.error))
  {
    var st := Store(true, {});
    FoldShape(st, s.writes);
    FirstRejectedUnique(st, |s.writes|, |s.writes|);
    assert s.writes[..|s.writes|] == s.writes;
  }

  /** One rejected write inside the try block: the writes before it are kept, the project is marked failed, and the rejection is rethrown. */
  lemma SingleRejection(s: Script, f: nat)
    requires f < |s.writes|
    ensures Execute(s, Store(true, {f})) ==
      Run(s.writes[..f] + [SetStatus(Schema.Failed, None)], Rethrown(WriteRejected))
  {
    var st := Store(true, {f});
    FoldShape(st, s.writes);
    FirstRejectedUnique(st, |s.writes|, f);
  }

  /**
   * When the `failed` status write is itself rejected, its error escapes
   * instead of the one that entered the catch block.
   */
  lemma CatchRejected(s: Script)
    requires s.ending.Threw?
    ensures Execute(s, Store(true, {|s.writes|})) == Run(s.writes, Rethrown(WriteRejected))
  {
    var st := Store(true, {|s.writes|});
    FoldShape(st, s.writes);
    FirstRejectedUnique(st, |s.writes|, |s.writes|);
    assert s.writes[..|s.writes|] == s.writes;
  }
}
