/** What the commands of the program meet: for each of those that are still to come, whether the host refuses it. Behind the
    end of such a list nothing is refused. */
module Commands {

  /** The next one is refused. */
  predicate Refused(refusals: seq<bool>) { refusals != [] && refusals[0] }

  function Coming(refusals: seq<bool>): seq<bool> {
    if refusals == [] then [] else refusals[1..]
  }

  /** Nothing is refused any more. */
  ghost predicate Calm(refusals: seq<bool>) {
    forall i :: 0 <= i < |refusals| ==> !refusals[i]
  }

  lemma CalmStays(refusals: seq<bool>)
    ensures Calm(refusals) ==> !Refused(refusals) && Calm(Coming(refusals))
  {
  }

  /** Commands of which each runs only when the ones before it went through: all of them did, or the last one was refused. */
  ghost predicate Ran(before: seq<bool>, after: seq<bool>, ok: bool) {
    || (ok && after == before)
    || (before != [] && if before[0] then !ok && after == before[1..] else Ran(before[1..], after, ok))
  }

  /** `n` commands went through; then nothing was left to do, or the next one was refused. */
  ghost predicate RanFor(before: seq<bool>, after: seq<bool>, ok: bool, n: nat) {
    && n <= |before| && (forall i :: 0 <= i < n ==> !before[i])
    && if ok then after == before[n..] else n < |before| && before[n] && after == before[n + 1..]
  }

  /** What that says of the host: it failed exactly when one of the commands it gave was refused, and that was its last. */
  lemma RanExactly(before: seq<bool>, after: seq<bool>, ok: bool)
    ensures Ran(before, after, ok) <==> exists n: nat :: RanFor(before, after, ok, n)
  {
    if Ran(before, after, ok) {
      var n := HowFar(before, after, ok);
    }
    if n: nat :| RanFor(before, after, ok, n) {
      RanSoFar(before, after, ok, n);
    }
  }

  lemma {:induction false} HowFar(before: seq<bool>, after: seq<bool>, ok: bool) returns (n: nat)
    requires Ran(before, after, ok)
    ensures RanFor(before, after, ok, n)
    decreases before
  {
    n := 0;
    if !(ok && after == before) && !before[0] {
      var rest := before[1..];
      n := HowFar(rest, after, ok);
      assert forall i :: 0 < i < n + 1 ==> rest[i - 1] == before[i];
      assert rest[n..] == before[n + 1..];
      n := n + 1;
    }
  }

  lemma {:induction false} RanSoFar(before: seq<bool>, after: seq<bool>, ok: bool, n: nat)
    requires RanFor(before, after, ok, n)
    ensures Ran(before, after, ok)
    decreases n
  {
    if n > 0 {
      var rest := before[1..];
      assert forall i :: 0 <= i < n - 1 ==> rest[i] == before[i + 1];
      assert rest[n - 1..] == before[n..];
      RanSoFar(rest, after, ok, n - 1);
    }
  }

  lemma RanOne(refusals: seq<bool>)
    ensures Ran(refusals, Coming(refusals), !Refused(refusals)) && Ran(refusals, refusals, true)
  {
  }

  lemma {:induction false} RanOn(before: seq<bool>, between: seq<bool>, after: seq<bool>, ok: bool)
    requires Ran(before, between, true) && Ran(between, after, ok)
    ensures Ran(before, after, ok)
    decreases before
  {
    if before != [] && between != before {
      RanOn(before[1..], between, after, ok);
    }
  }

  /** Where nothing is refused everything goes through. */
  lemma {:induction false} RanCalm(before: seq<bool>, after: seq<bool>, ok: bool)
    requires Ran(before, after, ok) && Calm(before)
    ensures ok && Calm(after)
    decreases before
  {
    if before != [] && !(ok && after == before) {
      RanCalm(before[1..], after, ok);
    }
  }

  /** At most one of the coming commands is refused. */
  ghost predicate OneRefusal(refusals: seq<bool>) {
    forall i, j :: 0 <= i < j < |refusals| ==> !(refusals[i] && refusals[j])
  }

  lemma {:induction false} RanOnce(before: seq<bool>, after: seq<bool>)
    requires Ran(before, after, false) && OneRefusal(before)
    ensures Calm(after)
    decreases before
  {
    if !before[0] {
      RanOnce(before[1..], after);
    }
  }
}
