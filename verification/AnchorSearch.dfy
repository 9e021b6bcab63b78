/** Finding every fork's anchor on restore (src/serve.rs, `restore`): round after round, each log is
    replayed from each state known so far, until the anchors are known or a round brings none. */
module AnchorSearch {
  import opened Wrappers
  import opened Patch
  import opened Setsum
  import opened Logs
  import opened Repo
  import opened Restoring

  /** A packed fork: its anchor's sum and its log. */
  datatype Packed = Packed(anchor: Sum, lines: seq<Line>)

  type Forks = map<string, Packed>

  ///////////////////////////////////////////// one round ///////////////////////////////////////////////

  /** What a log teaches, entered from each of some known states. */
  ghost function LearntIn(lines: seq<Line>, known: Known, starts: set<Sum>): set<Sum> {
    set s, x | s in starts && s in known && x in LearntFrom(known[s], lines) :: x
  }

  ghost function LearntOf(forks: Forks, known: Known, names: set<string>): set<Sum> {
    set f, x | f in names && f in forks && x in LearntIn(forks[f].lines, known, known.Keys) :: x
  }

  /** What one round teaches. */
  ghost function LearntBy(forks: Forks, known: Known): set<Sum> {
    LearntOf(forks, known, forks.Keys)
  }

  lemma LearntInMore(lines: seq<Line>, known: Known, left: set<Sum>, s: Sum)
    requires s in left && s in known
    ensures LearntIn(lines, known, known.Keys - (left - {s}))
         == LearntIn(lines, known, known.Keys - left) + LearntFrom(known[s], lines)
  {
    assert known.Keys - (left - {s}) == known.Keys - left + {s};
  }

  lemma LearntOfMore(forks: Forks, known: Known, left: set<string>, f: string)
    requires f in left && f in forks
    ensures LearntOf(forks, known, forks.Keys - (left - {f}))
         == LearntOf(forks, known, forks.Keys - left) + LearntIn(forks[f].lines, known, known.Keys)
  {
    assert forks.Keys - (left - {f}) == forks.Keys - left + {f};
  }

  ghost predicate IsSum(s: Sum) {
    exists m :: Keyed(m) && SumOf(m) == s
  }

  /** The manifest a sum attests; there is no other. */
  ghost function StateOf(s: Sum): State
    requires IsSum(s)
  {
    var m :| Keyed(m) && SumOf(m) == s;
    m
  }

  /** What is learnt is the sum of a manifest. */
  lemma LearntIsSum(from: State, lines: seq<Line>, k: nat)
    requires Keyed(from) && Learns(from, lines, k)
    ensures IsSum(lines[k].sumAfter)
  {
    var start := EntryPoint(SumOf(from), lines).value;
    assert ReplaysAt(from, lines, start, k);
    var now := StateAfter(from, lines[start..k]).value;
    SliceGrows(from, lines, start, k, now);
    KeyedAfter(from, lines[start..k]);
    ReplaySum(now, lines[k].realized);
  }

  lemma KeyedAfter(base: State, lines: seq<Line>)
    requires Keyed(base) && StateAfter(base, lines).Some?
    ensures Keyed(StateAfter(base, lines).value)
  {
    if lines != [] {
      KeyedAfter(base, lines[..|lines| - 1]);
      ReplaySum(StateAfter(base, lines[..|lines| - 1]).value, lines[|lines| - 1].realized);
    }
  }

  lemma LearntAreSums(forks: Forks, known: Known)
    requires KnownSound(known)
    ensures forall x :: x in LearntBy(forks, known) ==> IsSum(x)
  {
    forall f, s, k: nat | f in forks && s in known && k < |forks[f].lines| && Learns(known[s], forks[f].lines, k)
      ensures IsSum(forks[f].lines[k].sumAfter)
    {
      LearntIsSum(known[s], forks[f].lines, k);
    }
  }

  /** What is known after one more round. */
  ghost function Next(forks: Forks, known: Known): (r: Known)
    requires KnownSound(known)
    ensures Extended(known, r) && r.Keys == known.Keys + LearntBy(forks, known)
  {
    LearntAreSums(forks, known);
    map s | s in known.Keys + LearntBy(forks, known) :: if s in known then known[s] else StateOf(s)
  }

  /** What is known is fixed by its sums. */
  lemma KnownIsItsSums(a: Known, b: Known)
    requires KnownSound(a) && KnownSound(b) && a.Keys == b.Keys
    ensures a == b
  {
    forall s | s in a ensures a[s] == b[s] { SumFixesManifest(a[s], b[s]); }
  }

  /** What is known after `more` was added to what was known. */
  ghost predicate Learned(known0: Known, known: Known, more: set<Sum>) {
    Extended(known0, known) && known.Keys == known0.Keys + more
  }

  lemma LearnedThen(a: Known, b: Known, c: Known, some: set<Sum>, more: set<Sum>)
    requires Learned(a, b, some) && Learned(b, c, more)
    ensures Learned(a, c, some + more)
  {
  }

  lemma LearnedNothing(known: Known, none: set<Sum>)
    requires KnownSound(known) && none == {}
    ensures Learned(known, known, none)
  {
  }

  /** One log, entered from one known state. */
  method GrowOnce(lines: seq<Line>, known0: Known, s: Sum, known1: Known, known2: Known, ghost left: set<Sum>)
    returns (known: Known)
    requires KnownSound(known0) && KnownSound(known2) && s in known0 && s in left
    requires Learned(known1, known2, LearntIn(lines, known0, known0.Keys - left))
    ensures Learned(known1, known, LearntIn(lines, known0, known0.Keys - (left - {s})))
  {
    known := Derive(known0[s], lines, known2);
    LearntInMore(lines, known0, left, s);
    LearnedThen(known1, known2, known, LearntIn(lines, known0, known0.Keys - left), LearntFrom(known0[s], lines));
  }

  /** One log, entered from every state known before the round. */
  method GrowFrom(lines: seq<Line>, known0: Known, known1: Known) returns (known: Known)
    requires KnownSound(known0) && KnownSound(known1)
    ensures Learned(known1, known, LearntIn(lines, known0, known0.Keys))
  {
    known := known1;
    var starts := known0.Keys;
    LearnedNothing(known1, LearntIn(lines, known0, known0.Keys - starts));
    while starts != {}
      invariant starts <= known0.Keys && Learned(known1, known, LearntIn(lines, known0, known0.Keys - starts))
      decreases |starts|
    {
      var s :| s in starts;
      known := GrowOnce(lines, known0, s, known1, known, starts);
      starts := starts - {s};
    }
    assert known0.Keys - {} == known0.Keys;
  }

  /** Where a round stands: what every log but those of `todo` teaches is known. */
  ghost predicate Taught(forks: Forks, known0: Known, known: Known, todo: set<string>) {
    KnownSound(known0) && todo <= forks.Keys && Learned(known0, known, LearntOf(forks, known0, forks.Keys - todo))
  }

  lemma TaughtNothing(forks: Forks, known0: Known)
    requires KnownSound(known0)
    ensures Taught(forks, known0, known0, forks.Keys)
  {
    LearnedNothing(known0, LearntOf(forks, known0, forks.Keys - forks.Keys));
  }

  lemma TaughtAll(forks: Forks, known0: Known, known: Known)
    requires Taught(forks, known0, known, {})
    ensures known == Next(forks, known0)
  {
    assert forks.Keys - {} == forks.Keys;
    KnownIsItsSums(known, Next(forks, known0));
  }

  method GrowFork(forks: Forks, known0: Known, f: string, known1: Known, ghost todo: set<string>)
    returns (known: Known)
    requires Taught(forks, known0, known1, todo) && f in todo
    ensures Taught(forks, known0, known, todo - {f})
  {
    known := GrowFrom(forks[f].lines, known0, known1);
    LearntOfMore(forks, known0, todo, f);
    LearnedThen(known0, known1, known, LearntOf(forks, known0, forks.Keys - todo),
                LearntIn(forks[f].lines, known0, known0.Keys));
  }

  /** One round: every log, entered from every state known before the round. */
  method Grow(forks: Forks, known0: Known) returns (known: Known)
    requires KnownSound(known0)
    ensures known == Next(forks, known0)
  {
    known := known0;
    var todo := forks.Keys;
    TaughtNothing(forks, known0);
    while todo != {}
      invariant Taught(forks, known0, known, todo)
      decreases todo
    {
      var f :| f in todo;
      known := GrowFork(forks, known0, f, known, todo);
      todo := todo - {f};
    }
    TaughtAll(forks, known0, known);
  }

  ///////////////////////////////////////////// the search //////////////////////////////////////////////

  const EMPTY: Known := map[ZERO := map[]]

  lemma EmptyIsSound()
    ensures KnownSound(EMPTY)
  {
    assert SumOf(map[]) == ZERO;
  }

  /** One round's step. */
  ghost predicate IsRound(forks: Forks, known: Known, more: Known) {
    KnownSound(known) && more == Next(forks, known)
  }

  lemma RoundGrows(forks: Forks, known: Known, more: Known)
    requires IsRound(forks, known, more)
    ensures KnownSound(more) && known.Keys <= more.Keys
  {
  }

  /** What is known round after round, from the empty manifest on. */
  ghost predicate Rounds(forks: Forks, ks: seq<Known>) {
    ks != [] && ks[0] == EMPTY && forall i :: 0 < i < |ks| ==> IsRound(forks, ks[i - 1], ks[i])
  }

  /** The logs alone decide the rounds. */
  lemma {:induction false} RoundsAreDetermined(forks: Forks, ks: seq<Known>, js: seq<Known>, i: nat)
    requires Rounds(forks, ks) && Rounds(forks, js) && i < |ks| && i < |js|
    ensures ks[i] == js[i]
  {
    if i > 0 {
      RoundsAreDetermined(forks, ks, js, i - 1);
      assert IsRound(forks, ks[i - 1], ks[i]) && IsRound(forks, js[i - 1], js[i]);
    }
  }

  lemma {:induction false} RoundsGrow(forks: Forks, ks: seq<Known>, i: nat, j: nat)
    requires Rounds(forks, ks) && i <= j < |ks|
    ensures ks[i].Keys <= ks[j].Keys
  {
    if i < j {
      RoundsGrow(forks, ks, i, j - 1);
      RoundGrows(forks, ks[j - 1], ks[j]);
    }
  }

  /** The forks crossed off in the first `n` rounds: those whose anchor is known. */
  function Crossed(forks: Forks, ks: seq<Known>, n: nat): set<string>
    requires n < |ks|
  {
    if n == 0 then {} else set f | f in forks && forks[f].anchor in ks[n]
  }

  lemma CrossedGrows(forks: Forks, ks: seq<Known>, m: nat, n: nat)
    requires Rounds(forks, ks) && m <= n < |ks|
    ensures Crossed(forks, ks, m) <= Crossed(forks, ks, n) <= forks.Keys
  {
    RoundsGrow(forks, ks, m, n);
  }

  /** Round `n + 1` crosses off no fork, and not all are. */
  predicate Stalls(forks: Forks, ks: seq<Known>, n: nat)
    requires n + 1 < |ks|
  {
    Crossed(forks, ks, n) != forks.Keys && Crossed(forks, ks, n + 1) == Crossed(forks, ks, n)
  }

  ghost predicate StallsAt(forks: Forks, ks: seq<Known>, n: nat) {
    Rounds(forks, ks) && n + 1 < |ks| && Stalls(forks, ks, n)
  }

  /** Some round crosses off no fork while an anchor is missing. */
  ghost predicate Stalled(forks: Forks) {
    exists ks, n :: StallsAt(forks, ks, n)
  }

  /** The search so far: no round has stalled, and `unresolved` is what is left. */
  ghost predicate Searched(forks: Forks, ks: seq<Known>, unresolved: set<string>) {
    && Rounds(forks, ks) && unresolved == forks.Keys - Crossed(forks, ks, |ks| - 1)
    && forall n: nat :: n + 1 < |ks| ==> !Stalls(forks, ks, n)
  }

  lemma SearchStarts(forks: Forks)
    ensures Searched(forks, [EMPTY], forks.Keys)
  {
  }

  lemma RoundsMore(forks: Forks, ks: seq<Known>, known: Known)
    requires Rounds(forks, ks) && IsRound(forks, ks[|ks| - 1], known)
    ensures Rounds(forks, ks + [known])
  {
    var js := ks + [known];
    forall i | 0 < i < |js| ensures IsRound(forks, js[i - 1], js[i]) {
      if i < |ks| { assert IsRound(forks, ks[i - 1], ks[i]); }
    }
  }

  lemma RemainingIs(forks: Forks, ks: seq<Known>, unresolved: set<string>, remaining: set<string>)
    requires Rounds(forks, ks) && |ks| > 1 && unresolved == forks.Keys - Crossed(forks, ks, |ks| - 2)
    requires remaining == set f | f in unresolved && forks[f].anchor !in ks[|ks| - 1]
    ensures remaining == forks.Keys - Crossed(forks, ks, |ks| - 1) && remaining <= unresolved
    ensures unresolved != {} ==> (remaining == unresolved <==> Stalls(forks, ks, |ks| - 2))
  {
    CrossedGrows(forks, ks, |ks| - 2, |ks| - 1);
  }

  /** One round more. */
  lemma SearchedMore(forks: Forks, ks: seq<Known>, unresolved: set<string>, known: Known, remaining: set<string>)
    requires Searched(forks, ks, unresolved) && unresolved != {} && IsRound(forks, ks[|ks| - 1], known)
    requires remaining == set f | f in unresolved && forks[f].anchor !in known
    ensures remaining <= unresolved
    ensures remaining == unresolved ==> Stalled(forks)
    ensures remaining != unresolved ==> Searched(forks, ks + [known], remaining)
  {
    var js := ks + [known];
    RoundsMore(forks, ks, known);
    RemainingIs(forks, js, unresolved, remaining);
    if remaining == unresolved {
      assert StallsAt(forks, js, |js| - 2);
    } else {
      forall n: nat | n + 1 < |js| ensures !Stalls(forks, js, n) {
        if n + 1 < |ks| { assert !Stalls(forks, ks, n); }
      }
    }
  }

  /** Once every fork is crossed off, no round stalls: not those before, nor any after. */
  lemma NeverStalls(forks: Forks, ks: seq<Known>, js: seq<Known>, n: nat)
    requires Searched(forks, ks, {}) && Crossed(forks, ks, |ks| - 1) == forks.Keys
    requires Rounds(forks, js) && n + 1 < |js|
    ensures !Stalls(forks, js, n)
  {
    var last := |ks| - 1;
    if n < last {
      RoundsAreDetermined(forks, ks, js, n);
      RoundsAreDetermined(forks, ks, js, n + 1);
      assert Crossed(forks, js, n) == Crossed(forks, ks, n) && Crossed(forks, js, n + 1) == Crossed(forks, ks, n + 1);
      assert !Stalls(forks, ks, n);
    } else {
      RoundsAreDetermined(forks, ks, js, last);
      CrossedGrows(forks, js, last, n);
    }
  }

  lemma SearchedOut(forks: Forks, ks: seq<Known>)
    requires Searched(forks, ks, {})
    ensures !Stalled(forks)
    ensures forall f :: f in forks ==> forks[f].anchor in ks[|ks| - 1]
  {
    var crossed := Crossed(forks, ks, |ks| - 1);
    CrossedGrows(forks, ks, |ks| - 1, |ks| - 1);
    forall f | f in forks ensures f in crossed && forks[f].anchor in ks[|ks| - 1] {
      assert f !in forks.Keys - crossed;
    }
    assert crossed == forks.Keys;
    forall js, n: nat | Rounds(forks, js) && n + 1 < |js| ensures !Stalls(forks, js, n) {
      NeverStalls(forks, ks, js, n);
    }
  }

  /** Derive anchors round by round, or report those no packed log reaches.  It ends; it succeeds
      exactly where no round stalls, and then every anchor is known as a manifest of its sum. */
  method ResolveAnchors(forks: Forks) returns (r: Result<Known, Error>)
    ensures r.Err? <==> Stalled(forks)
    ensures r.Ok? ==> KnownSound(r.value) && forall f :: f in forks ==> forks[f].anchor in r.value
  {
    var known := EMPTY;
    var unresolved := forks.Keys;
    ghost var ks := [EMPTY];
    EmptyIsSound();
    SearchStarts(forks);
    while unresolved != {}
      invariant unresolved <= forks.Keys && Searched(forks, ks, unresolved)
      invariant known == ks[|ks| - 1] && KnownSound(known)
      decreases |unresolved|
    {
      known := Round(forks, known);
      var remaining := set f | f in unresolved && forks[f].anchor !in known;
      SearchedMore(forks, ks, unresolved, known, remaining);
      if remaining == unresolved { return Err(Corrupt); }
      Shrinks(remaining, unresolved);
      unresolved, ks := remaining, ks + [known];
    }
    SearchedOut(forks, ks);
    r := Ok(known);
  }

  method Round(forks: Forks, known: Known) returns (more: Known)
    requires KnownSound(known)
    ensures IsRound(forks, known, more) && KnownSound(more)
  {
    more := Grow(forks, known);
  }

  lemma Shrinks(a: set<string>, b: set<string>)
    requires a < b
    ensures |a| < |b|
  {
    assert b == a + (b - a);
  }
}
