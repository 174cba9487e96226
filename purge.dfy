/**
 * `purgeExisting`: for every TaxJar-managed rate loaded at the start, try to
 * delete its tax/calculation row and then the rate itself. Each attempt is
 * guarded on its own; a failure adds one error message and the loop goes on.
 */
module Purging {
  import opened Host

  const LinkDeleteError := "There was an error deleting from Magento model tax/calculation"
  const RateDeleteError := "There was an error deleting from Magento model tax/calculation_rate"

  /** The loop body for rate `r`. */
  function PurgeOne(w: World, s: HostState, r: RateId): (t: HostState)
    ensures |t.log| >= |s.log| + 2
    ensures |t.rates| <= |s.rates|
  {
    var s1 := Emit(s, LinkDeletion(r));
    var s2 := if r in w.linkDeleteFails then Emit(s1, SessionMessage(Error, LinkDeleteError)) else s1;
    var s3 := DeleteRateStep(w, s2, r);
    if r in w.rateDeleteFails then Emit(s3, SessionMessage(Error, RateDeleteError)) else s3
  }

  /** The loop over the rates still to visit. */
  function PurgeAll(w: World, s: HostState, todo: seq<RateId>): (t: HostState)
    ensures |t.log| >= |s.log| + 2 * |todo|
    ensures |t.rates| <= |s.rates|
    decreases |todo|
  {
    if todo == [] then s else PurgeAll(w, PurgeOne(w, s, todo[0]), todo[1..])
  }

  /** `purgeExisting` on the rates the host holds when it starts. */
  function Purge(w: World, s: HostState): (t: HostState)
    ensures s.log <= t.log
    ensures forall x :: x in t.rates <==> x in s.rates && x in w.rateDeleteFails
    ensures t.config == s.config && t.tempFile == s.tempFile
  {
    PurgeAllFrame(w, s, s.rates);
    PurgeAllRates(w, s, s.rates);
    PurgeAllLog(w, s, s.rates);
    PurgeAll(w, s, s.rates)
  }

  /** The calls made for one rate, whatever happened to the others. */
  function RateEffects(w: World, r: RateId): seq<Effect>
  {
    [LinkDeletion(r)]
    + (if r in w.linkDeleteFails then [SessionMessage(Error, LinkDeleteError)] else [])
    + [RateDeletion(r)]
    + (if r in w.rateDeleteFails then [SessionMessage(Error, RateDeleteError)] else [])
  }

  function PurgeEffects(w: World, todo: seq<RateId>): seq<Effect>
  {
    if todo == [] then [] else RateEffects(w, todo[0]) + PurgeEffects(w, todo[1..])
  }

  /** The rates among `todo` whose delete succeeds. */
  function Deleted(w: World, todo: seq<RateId>): set<RateId>
  {
    set r | r in todo && r !in w.rateDeleteFails
  }

  /** Calls a purge may make: the two deletions and error messages. */
  predicate IsPurgeCall(e: Effect)
  {
    e.LinkDeletion? || e.RateDeletion? || (e.SessionMessage? && e.kind == Error)
  }

  function ErrorCount(log: seq<Effect>): nat
  {
    if log == [] then 0
    else (if log[0].SessionMessage? && log[0].kind == Error then 1 else 0) + ErrorCount(log[1..])
  }

  /** How many of the visited rates are in `fails`, counting each visit. */
  function FailCount(todo: seq<RateId>, fails: set<RateId>): nat
  {
    if todo == [] then 0 else (if todo[0] in fails then 1 else 0) + FailCount(todo[1..], fails)
  }

  /** The calls of one pass of the loop body. */
  lemma PurgeOneLog(w: World, s: HostState, r: RateId)
    ensures PurgeOne(w, s, r).log == s.log + RateEffects(w, r)
  {
    var link := if r in w.linkDeleteFails then [SessionMessage(Error, LinkDeleteError)] else [];
    var rate := if r in w.rateDeleteFails then [SessionMessage(Error, RateDeleteError)] else [];
    assert PurgeOne(w, s, r).log == s.log + [LinkDeletion(r)] + link + [RateDeletion(r)] + rate;
  }

  /** One pass of the loop body: the rate's calls, and the rate gone unless its delete failed. */
  lemma PurgeOneEffect(w: World, s: HostState, r: RateId)
    ensures PurgeOne(w, s, r)
         == s.(rates := Without(s.rates, if r in w.rateDeleteFails then {} else {r}),
               log := s.log + RateEffects(w, r))
  {
    WithoutEmpty(s.rates);
    PurgeOneLog(w, s, r);
  }

  /** The rates a loop deletes: those of the first pass and those of the rest. */
  lemma DeletedSplit(w: World, todo: seq<RateId>)
    requires todo != []
    ensures Deleted(w, todo)
         == (if todo[0] in w.rateDeleteFails then {} else {todo[0]}) + Deleted(w, todo[1..])
  {
    assert forall x :: x in todo <==> x == todo[0] || x in todo[1..];
  }

  /** The loop appends the calls of every visited rate, in visiting order. */
  lemma {:induction false} PurgeAllLog(w: World, s: HostState, todo: seq<RateId>)
    ensures PurgeAll(w, s, todo).log == s.log + PurgeEffects(w, todo)
    decreases |todo|
  {
    if todo != [] {
      var s1 := PurgeOne(w, s, todo[0]);
      PurgeOneLog(w, s, todo[0]);
      PurgeAllLog(w, s1, todo[1..]);
      assert PurgeAll(w, s, todo).log == s.log + RateEffects(w, todo[0]) + PurgeEffects(w, todo[1..]);
      assert PurgeEffects(w, todo) == RateEffects(w, todo[0]) + PurgeEffects(w, todo[1..]);
    }
  }

  /** The loop removes exactly the rates whose delete succeeded. */
  lemma {:induction false} PurgeAllRates(w: World, s: HostState, todo: seq<RateId>)
    ensures PurgeAll(w, s, todo).rates == Without(s.rates, Deleted(w, todo))
    decreases |todo|
  {
    if todo == [] {
      assert Deleted(w, todo) == {};
      WithoutEmpty(s.rates);
    } else {
      var r := todo[0];
      var gone := if r in w.rateDeleteFails then {} else {r};
      var s1 := PurgeOne(w, s, r);
      PurgeOneEffect(w, s, r);
      PurgeAllRates(w, s1, todo[1..]);
      WithoutTwice(s.rates, gone, Deleted(w, todo[1..]));
      DeletedSplit(w, todo);
    }
  }

  /** The loop touches neither the configuration nor the temp file. */
  lemma {:induction false} PurgeAllFrame(w: World, s: HostState, todo: seq<RateId>)
    ensures PurgeAll(w, s, todo).config == s.config && PurgeAll(w, s, todo).tempFile == s.tempFile
    decreases |todo|
  {
    if todo != [] {
      PurgeOneEffect(w, s, todo[0]);
      PurgeAllFrame(w, PurgeOne(w, s, todo[0]), todo[1..]);
    }
  }

  /**
   * The whole loop: the calls of every visited rate are logged and exactly the
   * rates whose delete succeeded are removed; nothing else changes.
   */
  lemma PurgeAllEffect(w: World, s: HostState, todo: seq<RateId>)
    ensures PurgeAll(w, s, todo)
         == s.(rates := Without(s.rates, Deleted(w, todo)), log := s.log + PurgeEffects(w, todo))
  {
    PurgeAllLog(w, s, todo);
    PurgeAllRates(w, s, todo);
    PurgeAllFrame(w, s, todo);
  }

  lemma {:induction false} WithoutEmpty(rates: seq<RateId>)
    ensures Without(rates, {}) == rates
  {
    if rates != [] {
      WithoutEmpty(rates[1..]);
    }
  }

  /**
   * After a purge exactly the rates whose delete failed remain, in their
   * order; the log grows by the purge's calls and nothing else changes.
   */
  lemma PurgeResult(w: World, s: HostState)
    ensures Purge(w, s).config == s.config && Purge(w, s).tempFile == s.tempFile
    ensures Purge(w, s).log == s.log + PurgeEffects(w, s.rates)
    ensures Purge(w, s).rates == Without(s.rates, Deleted(w, s.rates))
    ensures forall x :: x in Purge(w, s).rates <==> x in s.rates && x in w.rateDeleteFails
  {
    PurgeAllEffect(w, s, s.rates);
  }

  /** Each rate's calls do not depend on what happened to the rates before it. */
  lemma {:induction false} PurgeEffectsAppend(w: World, a: seq<RateId>, b: seq<RateId>)
    ensures PurgeEffects(w, a + b) == PurgeEffects(w, a) + PurgeEffects(w, b)
  {
    if a == [] {
      assert a + b == b;
    } else {
      assert (a + b)[1..] == a[1..] + b;
      PurgeEffectsAppend(w, a[1..], b);
    }
  }

  /** Every rate gets a link delete attempt and a rate delete attempt; the loop never stops early. */
  lemma {:induction false} PurgeAttemptsEveryRate(w: World, todo: seq<RateId>)
    ensures forall r :: r in todo ==> LinkDeletion(r) in PurgeEffects(w, todo) && RateDeletion(r) in PurgeEffects(w, todo)
    ensures 2 * |todo| <= |PurgeEffects(w, todo)| <= 4 * |todo|
  {
    if todo != [] {
      PurgeAttemptsEveryRate(w, todo[1..]);
      assert RateEffects(w, todo[0])[0] == LinkDeletion(todo[0]);
      assert RateDeletion(todo[0]) in RateEffects(w, todo[0]);
    }
  }

  /** A purge makes only deletions and error messages: no fetch, no configuration write, no flush. */
  lemma {:induction false} PurgeOnlyDeletes(w: World, todo: seq<RateId>)
    ensures forall e :: e in PurgeEffects(w, todo) ==> IsPurgeCall(e)
  {
    if todo != [] {
      PurgeOnlyDeletes(w, todo[1..]);
    }
  }

  lemma {:induction false} ErrorCountAppend(a: seq<Effect>, b: seq<Effect>)
    ensures ErrorCount(a + b) == ErrorCount(a) + ErrorCount(b)
  {
    if a == [] {
      assert a + b == b;
    } else {
      assert (a + b)[1..] == a[1..] + b;
      ErrorCountAppend(a[1..], b);
    }
  }

  /** One error message per failed attempt, so at most two per rate. */
  lemma {:induction false} PurgeErrorCount(w: World, todo: seq<RateId>)
    ensures ErrorCount(PurgeEffects(w, todo))
         == FailCount(todo, w.linkDeleteFails) + FailCount(todo, w.rateDeleteFails)
    ensures ErrorCount(PurgeEffects(w, todo)) <= 2 * |todo|
  {
    if todo != [] {
      var r := todo[0];
      var link := if r in w.linkDeleteFails then [SessionMessage(Error, LinkDeleteError)] else [];
      var rate := if r in w.rateDeleteFails then [SessionMessage(Error, RateDeleteError)] else [];
      assert RateEffects(w, r) == [LinkDeletion(r)] + link + [RateDeletion(r)] + rate;
      ErrorCountAppend([LinkDeletion(r)] + link + [RateDeletion(r)], rate);
      ErrorCountAppend([LinkDeletion(r)] + link, [RateDeletion(r)]);
      ErrorCountAppend([LinkDeletion(r)], link);
      ErrorCountAppend(RateEffects(w, r), PurgeEffects(w, todo[1..]));
      PurgeErrorCount(w, todo[1..]);
    }
  }
}
