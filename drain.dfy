/**
 * The `mailer/send` console command (`actionSend`): `rounds` rounds, each
 * draining the queue portion by portion until a portion sends nothing, the
 * optional cap is reached or memory runs short, each round printing its total
 * and sleeping before the next one.
 *
 * What the portions return and whether memory was short after each is not
 * decided here: the command is run against a sequence of `Step`s, one per
 * call of `sendPortion`, in order. Past the end of the sequence the queue is
 * empty: a portion sends nothing and memory is fine. A portion that throws
 * (a message it could not save) ends the command there: that round prints
 * nothing and no later round runs.
 */
module SendCommand {
  import opened Wrappers

  /**
   * One call of `sendPortion`: its result (`None` is PHP `null`, the mailer
   * being disabled) and whether the memory guard tripped right after it; or
   * the exception it threw.
   */
  datatype Step =
    | Step(sent: Option<nat>, memoryHigh: bool)
    | Threw

  /** What the command prints and does between rounds. */
  datatype Output =
    | Line(total: nat, more: bool)   // "<total>" followed by "!" when `more`
    | Sleep(seconds: int)

  /**
   * The outcome of one round: its total, the last portion's result, where the
   * next round starts, and whether the last portion threw.
   */
  datatype Round = Round(total: nat, last: Option<nat>, next: nat, threw: bool)

  /** The whole command: what it printed and slept, how many portions it ran, and whether it ended on an exception. */
  datatype Run = Run(out: seq<Output>, used: nat, threw: bool)

  function StepAt(steps: seq<Step>, pos: nat): Step {
    if pos < |steps| then steps[pos] else Step(Some(0), false)
  }

  /** PHP's `+=` of a portion result: `null` adds nothing. */
  function Amount(sent: Option<nat>): nat {
    if sent.Some? then sent.value else 0
  }

  /** What a portion adds to the round's total; one that threw adds nothing. */
  function Yield(st: Step): nat {
    if st.Step? then Amount(st.sent) else 0
  }

  /** PHP truthiness of a portion result: `null` and `0` are false. */
  predicate Truthy(sent: Option<nat>) {
    sent.Some? && sent.value != 0
  }

  /** `$maxSend` as given on the command line, `0` standing for none (PHP treats `null` and `0` alike). */
  predicate Continues(sent: Option<nat>, total: nat, maxSend: int) {
    Truthy(sent) && (maxSend == 0 || total < maxSend)
  }

  /** The rest of a round from portion `pos`, `total` sent so far. */
  function RoundFrom(steps: seq<Step>, pos: nat, maxSend: int, total: nat): Round
    decreases if pos < |steps| then |steps| - pos else 0
  {
    var st := StepAt(steps, pos);
    if st.Threw? then Round(total, None, pos + 1, true)
    else
      var total' := total + Amount(st.sent);
      if st.memoryHigh || !Continues(st.sent, total', maxSend) then Round(total', st.sent, pos + 1, false)
      else RoundFrom(steps, pos + 1, maxSend, total')
  }

  /**
   * What `rounds` rounds print and sleep, the first starting at portion
   * `pos`; the position after the last portion run; whether a portion threw.
   */
  function Drain(steps: seq<Step>, pos: nat, maxSend: int, rounds: nat, sleep: int): Run
    decreases rounds
  {
    if rounds == 0 then Run([], pos, false)
    else
      var r := RoundFrom(steps, pos, maxSend, 0);
      if r.threw then Run([], r.next, true)
      else
        var rest := Drain(steps, r.next, maxSend, rounds - 1, sleep);
        Run([Line(r.total, Truthy(r.last))] + (if rounds > 1 then [Sleep(sleep)] else []) + rest.out, rest.used, rest.threw)
  }

  /** The sum of the portion results `from` up to `to`. */
  function Sent(steps: seq<Step>, from: nat, to: nat): nat
    decreases if to <= from then 0 else to - from
  {
    if to <= from then 0 else Sent(steps, from, to - 1) + Yield(StepAt(steps, to - 1))
  }

  /**
   * A round from `pos` takes the portions `pos` up to `next`: every one but
   * the last returned, sent something, left memory fine and, with a cap, left
   * the total below it; the last either threw, or is the round's `last` and
   * stopped the round; the round's total is the sum of exactly these portions
   * on top of `total`.
   */
  lemma {:induction false} RoundShape(steps: seq<Step>, pos: nat, maxSend: int, total: nat)
    ensures var r := RoundFrom(steps, pos, maxSend, total);
      && pos < r.next
      && r.total == total + Sent(steps, pos, r.next)
      && (forall j :: pos <= j < r.next - 1 ==>
            && StepAt(steps, j).Step?
            && Truthy(StepAt(steps, j).sent) && !StepAt(steps, j).memoryHigh
            && (maxSend == 0 || total + Sent(steps, pos, j + 1) < maxSend))
      && (r.threw <==> StepAt(steps, r.next - 1).Threw?)
      && (r.threw ==> r.last.None?)
      && (!r.threw ==>
            && r.last == StepAt(steps, r.next - 1).sent
            && (StepAt(steps, r.next - 1).memoryHigh || !Continues(r.last, r.total, maxSend)))
    decreases if pos < |steps| then |steps| - pos else 0
  {
    var st := StepAt(steps, pos);
    if st.Step? {
      var total' := total + Amount(st.sent);
      if !(st.memoryHigh || !Continues(st.sent, total', maxSend)) {
        var r' := RoundFrom(steps, pos + 1, maxSend, total');
        RoundShape(steps, pos + 1, maxSend, total');
        forall k | pos + 1 <= k <= r'.next
          ensures total + Sent(steps, pos, k) == total' + Sent(steps, pos + 1, k)
        {
          SentFirst(steps, pos, k);
        }
      }
    }
  }

  /** `Sent` peeled from the front. */
  lemma {:induction false} SentFirst(steps: seq<Step>, from: nat, to: nat)
    requires from < to
    ensures Sent(steps, from, to) == Yield(StepAt(steps, from)) + Sent(steps, from + 1, to)
    decreases if to <= from then 0 else to - from
  {
    if to - 1 > from {
      SentFirst(steps, from, to - 1);
    }
  }

  /**
   * The cap is exceeded by at most one portion: with a positive `maxSend`,
   * what a round had sent before its last portion is below `maxSend`.
   */
  lemma CapExceededByOnePortionAtMost(steps: seq<Step>, pos: nat, maxSend: int)
    requires maxSend > 0
    ensures var r := RoundFrom(steps, pos, maxSend, 0);
      r.total - Amount(r.last) < maxSend
  {
    var r := RoundFrom(steps, pos, maxSend, 0);
    RoundShape(steps, pos, maxSend, 0);
    if r.next - 1 > pos {
      assert Sent(steps, pos, r.next - 1) < maxSend;
    }
  }

  /**
   * A portion that throws, sends nothing, or after which memory is short,
   * ends the round: no later portion belongs to it.
   */
  lemma RoundEndsAtFirstStop(steps: seq<Step>, pos: nat, maxSend: int, j: nat)
    requires pos <= j
    requires StepAt(steps, j).Threw? || !Truthy(StepAt(steps, j).sent) || StepAt(steps, j).memoryHigh
    ensures RoundFrom(steps, pos, maxSend, 0).next <= j + 1
  {
    RoundShape(steps, pos, maxSend, 0);
  }

  /**
   * A round whose first portion sends nothing (the mailer disabled, or the
   * queue empty) prints `0` without `!` and takes that one portion only.
   */
  lemma NothingToSendPrintsZero(steps: seq<Step>, pos: nat, maxSend: int)
    requires StepAt(steps, pos).Step? && !Truthy(StepAt(steps, pos).sent)
    ensures var r := RoundFrom(steps, pos, maxSend, 0);
      r.total == 0 && !Truthy(r.last) && r.next == pos + 1 && !r.threw
  {
  }

  /**
   * A round prints `!` only when it was cut short: its last portion sent
   * something, so it stopped because memory ran short or the cap was reached.
   */
  lemma BangMeansCutShort(steps: seq<Step>, pos: nat, maxSend: int)
    ensures var r := RoundFrom(steps, pos, maxSend, 0);
      && r.next > pos
      && (Truthy(r.last) <==>
            && StepAt(steps, r.next - 1).Step?
            && Truthy(StepAt(steps, r.next - 1).sent)
            && (StepAt(steps, r.next - 1).memoryHigh || (maxSend != 0 && r.total >= maxSend)))
  {
    RoundShape(steps, pos, maxSend, 0);
  }

  /**
   * The command prints one line per round it finished, each line but the
   * last followed by a sleep: `rounds` lines when no portion threw, and when
   * one did, fewer lines, the last of them followed by its sleep. Line `i` is
   * round `i`, counted from zero, and says `!` exactly when that round's last
   * portion sent something.
   */
  lemma {:induction false} DrainShape(steps: seq<Step>, pos: nat, maxSend: int, rounds: nat, sleep: int)
    ensures var out := Drain(steps, pos, maxSend, rounds, sleep).out;
      && (!Drain(steps, pos, maxSend, rounds, sleep).threw ==> |out| == (if rounds == 0 then 0 else 2 * rounds - 1))
      && (Drain(steps, pos, maxSend, rounds, sleep).threw ==> |out| % 2 == 0 && |out| < 2 * rounds)
      && (forall i :: 0 <= i < |out| ==> (out[i].Line? <==> i % 2 == 0))
      && (forall i :: 0 <= i < |out| && i % 2 == 1 ==> out[i] == Sleep(sleep))
      && (rounds > 0 && !RoundFrom(steps, pos, maxSend, 0).threw ==>
            out[0] == Line(RoundFrom(steps, pos, maxSend, 0).total, Truthy(RoundFrom(steps, pos, maxSend, 0).last)))
    decreases rounds
  {
    if rounds > 0 {
      var r := RoundFrom(steps, pos, maxSend, 0);
      if !r.threw {
        DrainShape(steps, r.next, maxSend, rounds - 1, sleep);
        var rest := Drain(steps, r.next, maxSend, rounds - 1, sleep).out;
        var head := [Line(r.total, Truthy(r.last))] + (if rounds > 1 then [Sleep(sleep)] else []);
        var out := Drain(steps, pos, maxSend, rounds, sleep).out;
        assert out == head + rest;
        if rounds == 1 {
          assert rest == [];
        } else {
          assert |head| == 2;
          forall i | 2 <= i < |out| ensures out[i] == rest[i - 2] && (i % 2 == (i - 2) % 2) {
          }
        }
      }
    }
  }

  /**
   * The command runs the portions `pos` up to `used`, more than none when it
   * runs a round at all; it ends on an exception exactly when the last of
   * them threw, and no portion before that did.
   */
  lemma {:induction false} DrainUses(steps: seq<Step>, pos: nat, maxSend: int, rounds: nat, sleep: int)
    ensures var run := Drain(steps, pos, maxSend, rounds, sleep);
      && (rounds == 0 ==> run.used == pos && !run.threw)
      && (rounds > 0 ==> pos < run.used)
      && (forall j :: pos <= j < run.used ==> (StepAt(steps, j).Threw? <==> run.threw && j == run.used - 1))
    decreases rounds
  {
    if rounds > 0 {
      var r := RoundFrom(steps, pos, maxSend, 0);
      RoundShape(steps, pos, maxSend, 0);
      if !r.threw {
        DrainUses(steps, r.next, maxSend, rounds - 1, sleep);
      }
    }
  }

  /** `Drain` peeled by one round. */
  lemma DrainRound(steps: seq<Step>, pos: nat, maxSend: int, left: nat, sleep: int)
    requires left > 0
    ensures var r := RoundFrom(steps, pos, maxSend, 0);
      var rest := Drain(steps, r.next, maxSend, left - 1, sleep);
      Drain(steps, pos, maxSend, left, sleep)
        == if r.threw then Run([], r.next, true)
           else Run([Line(r.total, Truthy(r.last))] + (if left > 1 then [Sleep(sleep)] else []) + rest.out, rest.used, rest.threw)
  {
  }

  /**
   * One round of `actionSend`: `sendPortion` until a portion throws, sends
   * nothing, leaves memory short or brings the total to the cap.
   */
  method RunRound(steps: seq<Step>, start: nat, maxSend: int) returns (r: Round)
    ensures r == RoundFrom(steps, start, maxSend, 0)
  {
    var pos := start;
    var total: nat := 0;
    while true
      invariant start <= pos && (pos <= |steps| || pos == start)
      invariant RoundFrom(steps, pos, maxSend, total) == RoundFrom(steps, start, maxSend, 0)
      decreases if pos <= |steps| then |steps| - pos else 0
    {
      var st := StepAt(steps, pos);
      if st.Threw? {
        return Round(total, None, pos + 1, true);
      }
      var sent := st.sent;
      if st.memoryHigh || !Continues(sent, total + Amount(sent), maxSend) {
        return Round(total + Amount(sent), sent, pos + 1, false);
      }
      pos, total := pos + 1, total + Amount(sent);
    }
  }

  /**
   * `actionSend($maxSend, $rounds, $sleep)` for `rounds >= 0`: what it prints
   * and sleeps, how many portions it ran, and whether it ended on an exception.
   */
  method ActionSend(steps: seq<Step>, maxSend: int, rounds: nat, sleep: int) returns (out: seq<Output>, used: nat, threw: bool)
    ensures Run(out, used, threw) == Drain(steps, 0, maxSend, rounds, sleep)
  {
    out := [];
    var pos: nat := 0;
    var left: nat := rounds;
    while left > 0
      invariant left <= rounds
      invariant var rest := Drain(steps, pos, maxSend, left, sleep);
        Run(out + rest.out, rest.used, rest.threw) == Drain(steps, 0, maxSend, rounds, sleep)
      decreases left
    {
      var r := RunRound(steps, pos, maxSend);
      DrainRound(steps, pos, maxSend, left, sleep);
      if r.threw {
        assert out + [] == out;
        return out, r.next, true;
      }
      var head := [Line(r.total, Truthy(r.last))] + (if left > 1 then [Sleep(sleep)] else []);
      assert (out + head) + Drain(steps, r.next, maxSend, left - 1, sleep).out
          == out + (head + Drain(steps, r.next, maxSend, left - 1, sleep).out);
      out := out + head;
      pos, left := r.next, left - 1;
    }
    assert out + [] == out;
    used, threw := pos, false;
  }
}
