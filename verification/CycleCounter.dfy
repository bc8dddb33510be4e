/**
 The CPU cycle counters of acpudefs.h: for each instrumented function a 64-bit total kept in two
 32-bit words, to which UPDATECOUNTER adds the difference of two 64-bit time stamps, also given
 in two words each.
 */
module CycleCounter {
  const MAX_FNS := 12
  const WORD := 0x1_0000_0000
  const DOUBLE_WORD := 0x1_0000_0000_0000_0000

  /** unsigned long */
  type Word = x: int | 0 <= x < WORD

  /** Arithmetic of unsigned long: modulo 2^32. */
  function Wrap(x: int): Word {
    x % WORD
  }

  /** Two words read as one number. */
  function Double(hi: Word, lo: Word): (r: nat)
    ensures r < DOUBLE_WORD && r / WORD == hi && r % WORD == lo
  {
    hi * WORD + lo
  }

  /** What two words keep of a number. */
  function Residue(x: int): nat {
    x % DOUBLE_WORD
  }

  /** One timed stretch of function fn, from time stamp to time stamp. */
  datatype Interval = Interval(fn: nat, start: nat, end: nat)

  /** The time spent in fn. */
  function Spent(history: seq<Interval>, fn: nat): int {
    if history == [] then 0
    else
      var last := history[|history| - 1];
      Spent(history[..|history| - 1], fn) + if last.fn == fn then last.end - last.start else 0
  }

  /** The number of times fn was timed. */
  function Timed(history: seq<Interval>, fn: nat): nat {
    if history == [] then 0
    else Timed(history[..|history| - 1], fn) + if history[|history| - 1].fn == fn then 1 else 0
  }

  /** The subtraction with borrow: two words that stand for end - start, or for 2^64 more. */
  method Elapsed(startHi: Word, startLo: Word, stopHi: Word, endLo: Word) returns (timeHi: Word, timeLo: Word)
    ensures var elapsed := Double(stopHi, endLo) - Double(startHi, startLo);
            Double(timeHi, timeLo) == if elapsed < 0 then elapsed + DOUBLE_WORD else elapsed
  {
    var endHi := stopHi;
    if endLo < startLo {
      timeLo := 0xFFFF_FFFF - (startLo - endLo - 1);
      WrapIs(stopHi as int - 1);
      endHi := Wrap(stopHi as int - 1);
    } else {
      timeLo := endLo - startLo;
    }
    WrapIs(endHi - startHi);
    timeHi := Wrap(endHi - startHi);
  }

  /** The addition with carry: two words that stand for the sum, or for 2^64 less. */
  method Accumulate(countHi: Word, countLo: Word, elapsedHi: Word, timeLo: Word) returns (hi: Word, lo: Word)
    ensures var sum := Double(countHi, countLo) + Double(elapsedHi, timeLo);
            Double(hi, lo) == if sum < DOUBLE_WORD then sum else sum - DOUBLE_WORD
  {
    var timeHi := elapsedHi;
    WrapIs(countLo as int + timeLo);
    lo := Wrap(countLo as int + timeLo);
    if lo < timeLo {
      WrapIs(elapsedHi as int + 1);
      timeHi := Wrap(elapsedHi as int + 1);
    }
    WrapIs(countHi as int + timeHi);
    hi := Wrap(countHi as int + timeHi);
  }

  lemma WrapIs(x: int)
    requires -WORD <= x < 2 * WORD
    ensures Wrap(x) == if x < 0 then x + WORD else if x < WORD then x else x - WORD
  {
  }

  lemma OneMore(history: seq<Interval>, last: Interval, fn: nat)
    ensures Spent(history + [last], fn) == Spent(history, fn) + if last.fn == fn then last.end - last.start else 0
    ensures Timed(history + [last], fn) == Timed(history, fn) + if last.fn == fn then 1 else 0
    ensures last.fn == fn ==> Wrap(Timed(history + [last], fn)) == Wrap(Wrap(Timed(history, fn)) as int + 1)
  {
    assert (history + [last])[..|history|] == history;
  }

  /** Adding up residues modulo 2^64 gives the residue of the sum. */
  lemma AddedResidue(spent: int, elapsed: int, was: nat, added: nat, now: nat)
    requires was == Residue(spent) && -DOUBLE_WORD < elapsed < DOUBLE_WORD
    requires added == if elapsed < 0 then elapsed + DOUBLE_WORD else elapsed
    requires now == if was + added < DOUBLE_WORD then was + added else was + added - DOUBLE_WORD
    ensures now == Residue(spent + elapsed)
  {
  }

  /** The counters, and what was timed since they were last reset. */
  class Counters {
    const callCount: array<Word>
    const cycleCountHi: array<Word>
    const cycleCountLo: array<Word>
    ghost var history: seq<Interval>

    /** Each counter holds the time spent in its function and the number of its calls, as far as
        64 and 32 bits go. */
    ghost predicate Valid()
      reads this, callCount, cycleCountHi, cycleCountLo
    {
      && Shaped()
      && forall fn :: 0 <= fn < MAX_FNS ==> Right(fn)
    }

    ghost predicate Shaped() {
      && callCount.Length == cycleCountHi.Length == cycleCountLo.Length == MAX_FNS
      && callCount != cycleCountHi && callCount != cycleCountLo && cycleCountHi != cycleCountLo
    }

    ghost predicate Right(fn: nat)
      requires Shaped() && fn < MAX_FNS
      reads this, callCount, cycleCountHi, cycleCountLo
    {
      && Double(cycleCountHi[fn], cycleCountLo[fn]) == Residue(Spent(history, fn))
      && callCount[fn] == Wrap(Timed(history, fn))
    }

    constructor ()
      ensures Valid() && history == [] && fresh(callCount) && fresh(cycleCountHi) && fresh(cycleCountLo)
    {
      callCount := new Word[MAX_FNS](_ => 0);
      cycleCountHi := new Word[MAX_FNS](_ => 0);
      cycleCountLo := new Word[MAX_FNS](_ => 0);
      history := [];
    }

    /** UPDATECOUNTER(fn), between the time stamps that TIMERSTART and TIMERSTOP took. */
    method UpdateCounter(fn: nat, startHi: Word, startLo: Word, endHi: Word, endLo: Word)
      requires Valid() && fn < MAX_FNS
      modifies this, callCount, cycleCountHi, cycleCountLo
      ensures Valid()
      ensures history == old(history) + [Interval(fn, Double(startHi, startLo), Double(endHi, endLo))]
    {
      ghost var before := history;
      ghost var last := Interval(fn, Double(startHi, startLo), Double(endHi, endLo));
      ghost var was := Double(cycleCountHi[fn], cycleCountLo[fn]);
      assert Right(fn);
      callCount[fn] := Wrap(callCount[fn] as int + 1);
      var timeHi, timeLo := Elapsed(startHi, startLo, endHi, endLo);
      var hi, lo := Accumulate(cycleCountHi[fn], cycleCountLo[fn], timeHi, timeLo);
      cycleCountHi[fn], cycleCountLo[fn] := hi, lo;
      history := history + [last];
      forall g | 0 <= g < MAX_FNS
        ensures Right(g)
      {
        OneMore(before, last, g);
        if g == fn {
          AddedResidue(Spent(before, fn), last.end - last.start, was, Double(timeHi, timeLo), Double(hi, lo));
        } else {
          assert old(Right(g));
        }
      }
    }

    /** RESET_COUNTERS */
    method ResetCounters()
      requires Valid()
      modifies this, callCount, cycleCountHi, cycleCountLo
      ensures Valid() && history == []
    {
      history := [];
      for idx := 0 to MAX_FNS
        invariant Shaped() && history == []
        invariant forall fn :: 0 <= fn < idx ==> callCount[fn] == 0
        invariant forall fn :: 0 <= fn < idx ==> cycleCountHi[fn] == 0 && cycleCountLo[fn] == 0
      {
        callCount[idx] := 0;
        cycleCountHi[idx] := 0;
        cycleCountLo[idx] := 0;
      }
    }
  }

  /** Time stamps that do not run backwards make every contribution non-negative. */
  predicate Forward(history: seq<Interval>) {
    forall k :: 0 <= k < |history| ==> history[k].start <= history[k].end
  }

  lemma {:induction false} NeverNegative(history: seq<Interval>, fn: nat)
    requires Forward(history)
    ensures Spent(history, fn) >= 0
  {
    if history == [] {
    } else {
      NeverNegative(history[..|history| - 1], fn);
    }
  }

  /** Until 2^64 cycles are exceeded, the two words are the exact time spent. */
  lemma ExactTotal(c: Counters, fn: nat)
    requires c.Valid() && fn < MAX_FNS && Forward(c.history)
    ensures Double(c.cycleCountHi[fn], c.cycleCountLo[fn]) == Spent(c.history, fn)
            <==> Spent(c.history, fn) < DOUBLE_WORD
  {
    NeverNegative(c.history, fn);
    assert c.Right(fn);
  }
}
