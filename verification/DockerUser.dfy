/** Our groups of rules in Docker's chain DOCKER-USER (core/vibedpn/engine/router.py, `plan_docker_user`
    and `sync_docker_user`). */
module DockerUser {
  import opened Options
  import opened Sequences
  import opened Commands

  /** A rule as the arguments `iptables -S` prints behind `-A DOCKER-USER`. */
  type Args = seq<string>

  const OUR_COMMENT_PREFIX := "vibedpn-"

  predicate StartsWith(s: string, prefix: string) {
    |prefix| <= |s| && s[..|prefix|] == prefix
  }

  /** `_commented_by_us`: the argument behind the first `--comment` starts with our prefix. */
  predicate CommentedByUs(rule: Args) {
    && "--comment" in rule
    && var position := FirstIndex(rule, "--comment") + 1;
       position < |rule| && StartsWith(rule[position], OUR_COMMENT_PREFIX)
  }

  /** `takewhile(_commented_by_us, rules)`. */
  function Head(rules: seq<Args>): seq<Args> {
    if rules == [] || !CommentedByUs(rules[0]) then [] else [rules[0]] + Head(rules[1..])
  }

  function With(rules: seq<Args>, comment: string): seq<Args> {
    if rules == [] then []
    else (if comment in rules[0] then [rules[0]] else []) + With(rules[1..], comment)
  }

  function Without(rules: seq<Args>, comment: string): seq<Args> {
    if rules == [] then []
    else (if comment in rules[0] then [] else [rules[0]]) + Without(rules[1..], comment)
  }

  /** The group is in place: complete, and all of it above the first foreign rule. */
  predicate InPlace(rules: seq<Args>, wanted: seq<Args>, comment: string) {
    |With(rules, comment)| == |wanted| && multiset(With(Head(rules), comment)) == multiset(wanted)
  }

  /** `plan_docker_user`: the rules to delete, and the rules to insert. */
  function Plan(rules: seq<Args>, wanted: seq<Args>, comment: string): (seq<Args>, seq<Args>) {
    if InPlace(rules, wanted, comment) then ([], []) else (With(rules, comment), wanted)
  }

  /** `iptables -D`: the first equal rule goes. */
  function DeleteRule(rules: seq<Args>, rule: Args): seq<Args> {
    if rules == [] then [] else if rules[0] == rule then rules[1..] else [rules[0]] + DeleteRule(rules[1..], rule)
  }

  /** A group as `docker_user_rules` and `router_docker_user_rules` build it: every rule carries the comment. */
  predicate Group(wanted: seq<Args>, comment: string) {
    forall w :: w in wanted ==> comment in w && CommentedByUs(w)
  }

  /** `sync_docker_user`; every iptables command may be refused, which ends it. A complete run that had
      something to do leaves the group on top in wanted order; every run, complete or not, keeps the rules of
      everybody else in order, and another group of ours that stood in place stays in place. */
  method Sync(chain: seq<Args>, wanted: seq<Args>, comment: string, refusals: seq<bool>, ghost beside: seq<Args>,
              ghost other: string)
    returns (after: seq<Args>, ok: bool, left: seq<bool>)
    requires Group(wanted, comment)
    requires forall r :: r in chain || r in wanted ==> !(comment in r && other in r)
    ensures InPlace(chain, wanted, comment) ==> ok && after == chain && left == refusals
    ensures Ran(refusals, left, ok) && (Calm(refusals) ==> ok)
    ensures !InPlace(chain, wanted, comment) && ok ==> after == wanted + Without(chain, comment)
    ensures Without(after, comment) == Without(chain, comment)
    ensures InPlace(chain, beside, other) ==> InPlace(after, beside, other)
    ensures forall r :: r in after ==> r in chain || r in wanted
  {
    var (delete, insert) := Plan(chain, wanted, comment);
    InPlaceIsAbove(chain, beside, other);
    after, ok, left := DeleteGroup(chain, delete, comment, refusals, beside, other);
    if ok {
      AllOthers(after, comment);
      ghost var between := left;
      after, ok, left := InsertGroup(after, insert, comment, left, beside, other);
      RanOn(refusals, between, left, ok);
    }
    if Calm(refusals) {
      RanCalm(refusals, left, ok);
    }
    InPlaceIsAbove(after, beside, other);
  }

  /** The deletes of a sync: every rule of the group, or none. */
  method DeleteGroup(chain: seq<Args>, delete: seq<Args>, comment: string, refusals: seq<bool>, ghost beside: seq<Args>,
                     ghost other: string)
    returns (after: seq<Args>, ok: bool, left: seq<bool>)
    requires delete == [] || delete == With(chain, comment)
    requires forall r :: r in chain ==> !(comment in r && other in r)
    ensures delete == [] ==> ok && after == chain && left == refusals
    ensures Ran(refusals, left, ok)
    ensures delete != [] && ok ==> With(after, comment) == []
    ensures Without(after, comment) == Without(chain, comment)
    ensures Above(chain, beside, other) ==> Above(after, beside, other)
    ensures forall r :: r in after ==> r in chain
  {
    after, ok, left := chain, true, refusals;
    RanOne(refusals);
    for i := 0 to |delete|
      invariant Ran(refusals, left, true) && (delete == [] ==> left == refusals)
      invariant delete != [] ==> With(after, comment) == delete[i..]
      invariant delete == [] ==> after == chain
      invariant forall r :: r in after ==> r in chain
      invariant Without(after, comment) == Without(chain, comment)
      invariant Above(chain, beside, other) ==> Above(after, beside, other)
    {
      RanOne(left);
      RanOn(refusals, left, Coming(left), !Refused(left));
      ok := !Refused(left);
      left := Coming(left);
      if !ok {
        return;
      }
      WithElements(chain, comment, delete[i]);
      DeleteOurs(after, comment, delete[i]);
      DeleteLeaves(after, delete[i]);
      if Above(after, beside, other) {
        DeleteKeepsAbove(after, other, delete[i]);
      }
      after := DeleteRule(after, delete[i]);
    }
  }

  /** The inserts of a sync: each at the top, the last one wanted first. */
  method InsertGroup(rest: seq<Args>, insert: seq<Args>, comment: string, refusals: seq<bool>, ghost beside: seq<Args>,
                     ghost other: string)
    returns (after: seq<Args>, ok: bool, left: seq<bool>)
    requires Group(insert, comment)
    requires forall r :: r in insert ==> !(comment in r && other in r)
    ensures ok ==> after == insert + rest
    ensures insert == [] ==> ok && left == refusals
    ensures Ran(refusals, left, ok)
    ensures Without(after, comment) == Without(rest, comment)
    ensures Above(rest, beside, other) ==> Above(after, beside, other)
    ensures forall r :: r in after ==> r in rest || r in insert
  {
    hide Above, Without, CommentedByUs;
    after, ok, left := rest, true, refusals;
    RanOne(refusals);
    var i := |insert|;
    while ok && i > 0
      invariant 0 <= i <= |insert| && after == insert[i..] + rest
      invariant Without(after, comment) == Without(rest, comment)
      invariant Above(rest, beside, other) ==> Above(after, beside, other)
      invariant !ok ==> insert != []
      invariant Ran(refusals, left, ok) && (insert == [] ==> left == refusals)
      decreases i, ok
    {
      RanOne(left);
      RanOn(refusals, left, Coming(left), !Refused(left));
      ok := !Refused(left);
      left := Coming(left);
      if ok {
        i := i - 1;
        InsertStep(rest, insert, i, after, comment, beside, other);
        after := [insert[i]] + after;
      }
    }
    assert insert[0..] == insert;
  }

  lemma InsertStep(rest: seq<Args>, insert: seq<Args>, i: nat, after: seq<Args>, comment: string, beside: seq<Args>,
                   other: string)
    requires Group(insert, comment) && i < |insert| && after == insert[i + 1..] + rest
    requires forall r :: r in insert ==> !(comment in r && other in r)
    ensures [insert[i]] + after == insert[i..] + rest
    ensures Without([insert[i]] + after, comment) == Without(after, comment)
    ensures Above(after, beside, other) ==> Above([insert[i]] + after, beside, other)
  {
    hide *;
    FromOneBefore(insert, i, rest);
    GroupHas(insert, comment, insert[i]);
    InsertKeepsOthers(after, comment, beside, other, insert[i]);
  }

  lemma FromOneBefore<T>(s: seq<T>, i: nat, rest: seq<T>)
    requires i < |s|
    ensures [s[i]] + (s[i + 1..] + rest) == s[i..] + rest
  {
  }

  lemma GroupHas(wanted: seq<Args>, comment: string, rule: Args)
    requires Group(wanted, comment) && rule in wanted
    ensures comment in rule && CommentedByUs(rule)
  {
  }

  lemma {:induction false} DeleteLeaves(rules: seq<Args>, rule: Args)
    ensures forall r :: r in DeleteRule(rules, rule) ==> r in rules
  {
    if rules != [] && rules[0] != rule {
      DeleteLeaves(rules[1..], rule);
    }
  }

  // ---- lemmas about the two filters and the head ---------------------------------------------------

  /** In place, said by the whole chain: no rule of the group stands below the head. */
  ghost predicate Above(rules: seq<Args>, wanted: seq<Args>, comment: string) {
    With(Head(rules), comment) == With(rules, comment) && multiset(With(rules, comment)) == multiset(wanted)
  }

  lemma {:induction false} HeadIsPrefix(rules: seq<Args>)
    ensures |Head(rules)| <= |rules| && Head(rules) == rules[..|Head(rules)|]
  {
    if rules != [] && CommentedByUs(rules[0]) {
      HeadIsPrefix(rules[1..]);
    }
  }

  lemma {:induction false} WithAppend(a: seq<Args>, b: seq<Args>, comment: string)
    ensures With(a + b, comment) == With(a, comment) + With(b, comment)
  {
    if a == [] {
      assert a + b == b;
    } else {
      assert (a + b)[1..] == a[1..] + b;
      WithAppend(a[1..], b, comment);
    }
  }

  lemma InPlaceIsAbove(rules: seq<Args>, wanted: seq<Args>, comment: string)
    ensures InPlace(rules, wanted, comment) <==> Above(rules, wanted, comment)
  {
    HeadIsPrefix(rules);
    var h := |Head(rules)|;
    assert rules == rules[..h] + rules[h..];
    WithAppend(rules[..h], rules[h..], comment);
    SameSize(With(Head(rules), comment), wanted);
    SameSize(With(rules, comment), wanted);
  }

  predicate FirstAt(rule: Args, word: string, i: nat) {
    i < |rule| && rule[i] == word && word !in rule[..i]
  }

  lemma FirstIsThere(rule: Args, word: string, i: nat)
    ensures FirstAt(rule, word, i) <==> word in rule && i == FirstIndex(rule, word)
  {
    if word in rule {
      var first := FirstIndex(rule, word);
      assert first < i < |rule| ==> rule[..i][first] == word;
    }
  }

  /** Ours, in words. */
  lemma CommentedIs(rule: Args)
    ensures CommentedByUs(rule) <==>
              exists i: nat :: FirstAt(rule, "--comment", i) && i + 1 < |rule| && StartsWith(rule[i + 1], "vibedpn-")
  {
    forall i: nat ensures FirstAt(rule, "--comment", i) <==> "--comment" in rule && i == FirstIndex(rule, "--comment") {
      FirstIsThere(rule, "--comment", i);
    }
    hide FirstAt;
    if CommentedByUs(rule) {
      assert FirstAt(rule, "--comment", FirstIndex(rule, "--comment"));
    }
  }

  /** The group is in place when the rules with its comment are the wanted ones, each as often, and only rules of ours stand
      above them. */
  lemma InPlaceIs(rules: seq<Args>, wanted: seq<Args>, comment: string)
    ensures InPlace(rules, wanted, comment) <==>
              && (forall r :: multiset(wanted)[r] == if comment in r then multiset(rules)[r] else 0)
              && (forall i, j :: 0 <= i <= j < |rules| && comment in rules[j] ==> CommentedByUs(rules[i]))
  {
    InPlaceIsAbove(rules, wanted, comment);
    HeadHasAll(rules, comment);
    forall r ensures multiset(With(rules, comment))[r] == if comment in r then multiset(rules)[r] else 0 {
      WithCounts(rules, comment, r);
    }
    assert multiset(With(rules, comment)) == multiset(wanted) <==>
      forall r :: multiset(wanted)[r] == multiset(With(rules, comment))[r];
  }

  lemma {:induction false} WithCounts(rules: seq<Args>, comment: string, r: Args)
    ensures multiset(With(rules, comment))[r] == if comment in r then multiset(rules)[r] else 0
  {
    if rules != [] {
      WithCounts(rules[1..], comment, r);
      assert rules == [rules[0]] + rules[1..];
    }
  }

  lemma {:induction false} HeadHasAll(rules: seq<Args>, comment: string)
    ensures With(Head(rules), comment) == With(rules, comment) <==>
              forall i, j :: 0 <= i <= j < |rules| && comment in rules[j] ==> CommentedByUs(rules[i])
  {
    if rules != [] {
      var rest := rules[1..];
      HeadHasAll(rest, comment);
      assert forall j :: 1 <= j < |rules| ==> rules[j] == rest[j - 1];
      if CommentedByUs(rules[0]) {
        SameTail(rules[0], Head(rest), rest, comment);
        assert ([rules[0]] + Head(rest))[1..] == Head(rest) && [rules[0]] + rest == rules;
        AllBelow(rules, comment);
      } else {
        NoneWith(rules, comment);
      }
    }
  }

  lemma AllBelow(rules: seq<Args>, comment: string)
    requires rules != [] && CommentedByUs(rules[0])
    ensures (forall i, j :: 0 <= i <= j < |rules| && comment in rules[j] ==> CommentedByUs(rules[i])) <==>
            (forall i, j :: 0 <= i <= j < |rules[1..]| && comment in rules[1..][j] ==> CommentedByUs(rules[1..][i]))
  {
    hide CommentedByUs;
    var rest := rules[1..];
    if forall i, j :: 0 <= i <= j < |rest| && comment in rest[j] ==> CommentedByUs(rest[i]) {
      forall i, j | 0 <= i <= j < |rules| && comment in rules[j] ensures CommentedByUs(rules[i]) {
        if i > 0 {
          assert rest[i - 1] == rules[i] && rest[j - 1] == rules[j];
        }
      }
    }
    if forall i, j :: 0 <= i <= j < |rules| && comment in rules[j] ==> CommentedByUs(rules[i]) {
      forall i, j | 0 <= i <= j < |rest| && comment in rest[j] ensures CommentedByUs(rest[i]) {
        assert rest[i] == rules[i + 1] && rest[j] == rules[j + 1];
      }
    }
  }

  lemma {:induction false} NoneWith(rules: seq<Args>, comment: string)
    ensures With(rules, comment) == [] <==> forall j :: 0 <= j < |rules| ==> comment !in rules[j]
  {
    if rules != [] {
      NoneWith(rules[1..], comment);
      assert forall j :: 1 <= j < |rules| ==> rules[j] == rules[1..][j - 1];
      assert forall j :: 0 <= j < |rules[1..]| ==> rules[1..][j] == rules[j + 1];
    }
  }

  lemma SameSize(a: seq<Args>, b: seq<Args>)
    ensures multiset(a) == multiset(b) ==> |a| == |b|
  {
    assert |multiset(a)| == |a| && |multiset(b)| == |b|;
  }

  lemma {:induction false} WithElements(rules: seq<Args>, comment: string, rule: Args)
    ensures rule in With(rules, comment) <==> rule in rules && comment in rule
    ensures rule in Without(rules, comment) <==> rule in rules && comment !in rule
  {
    if rules != [] {
      WithElements(rules[1..], comment, rule);
      assert rules == [rules[0]] + rules[1..];
    }
  }

  /** The first rule of the group goes, the order of all others stays. */
  lemma {:induction false} DeleteOurs(rules: seq<Args>, comment: string, rule: Args)
    requires comment in rule
    requires With(rules, comment) != [] && With(rules, comment)[0] == rule
    ensures With(DeleteRule(rules, rule), comment) == With(rules, comment)[1..]
    ensures Without(DeleteRule(rules, rule), comment) == Without(rules, comment)
  {
    if rules[0] != rule {
      assert comment !in rules[0];
      DeleteOurs(rules[1..], comment, rule);
      assert ([rules[0]] + DeleteRule(rules[1..], rule))[1..] == DeleteRule(rules[1..], rule);
    }
  }

  lemma {:induction false} DeleteKeepsAbove(rules: seq<Args>, other: string, rule: Args)
    requires other !in rule && With(Head(rules), other) == With(rules, other)
    ensures With(DeleteRule(rules, rule), other) == With(rules, other)
    ensures With(Head(DeleteRule(rules, rule)), other) == With(rules, other)
  {
    if rules != [] {
      var rest := rules[1..];
      HeadIsPrefix(rest);
      if CommentedByUs(rules[0]) {
        assert ([rules[0]] + Head(rest))[1..] == Head(rest);
        SameTail(rules[0], Head(rest), rest, other);
        if rules[0] != rule {
          DeleteKeepsAbove(rest, other, rule);
          var left := DeleteRule(rest, rule);
          assert ([rules[0]] + left)[1..] == left;
          assert ([rules[0]] + Head(left))[1..] == Head(left);
        }
      } else {
        NoneLeft(rules, other, rule);
      }
    }
  }

  lemma SameTail(first: Args, a: seq<Args>, b: seq<Args>, other: string)
    ensures With([first] + a, other) == With([first] + b, other) <==> With(a, other) == With(b, other)
  {
    var own := if other in first then [first] else [];
    assert ([first] + a)[1..] == a && ([first] + b)[1..] == b;
    if own + With(a, other) == own + With(b, other) {
      assert With(a, other) == (own + With(a, other))[|own|..];
      assert With(b, other) == (own + With(b, other))[|own|..];
    }
  }

  lemma InsertKeepsOthers(rules: seq<Args>, comment: string, beside: seq<Args>, other: string, rule: Args)
    requires comment in rule && other !in rule && CommentedByUs(rule)
    ensures Without([rule] + rules, comment) == Without(rules, comment)
    ensures Above(rules, beside, other) ==> Above([rule] + rules, beside, other)
  {
    assert ([rule] + rules)[1..] == rules;
    assert ([rule] + Head(rules))[1..] == Head(rules);
  }

  lemma {:induction false} NoneLeft(rules: seq<Args>, other: string, rule: Args)
    requires With(rules, other) == []
    ensures With(DeleteRule(rules, rule), other) == [] && With(Head(DeleteRule(rules, rule)), other) == []
  {
    if rules != [] {
      if rules[0] != rule {
        NoneLeft(rules[1..], other, rule);
        var left := DeleteRule(rules[1..], rule);
        assert ([rules[0]] + left)[1..] == left;
      }
    }
    HeadNone(DeleteRule(rules, rule), other);
  }

  lemma HeadNone(rules: seq<Args>, other: string)
    ensures With(rules, other) == [] ==> With(Head(rules), other) == []
  {
    HeadIsPrefix(rules);
    var h := |Head(rules)|;
    assert rules == rules[..h] + rules[h..];
    WithAppend(rules[..h], rules[h..], other);
  }

  lemma {:induction false} AllOthers(rules: seq<Args>, comment: string)
    ensures With(rules, comment) == [] ==> Without(rules, comment) == rules
    ensures With(Without(rules, comment), comment) == []
  {
    if rules != [] {
      AllOthers(rules[1..], comment);
      var rest := Without(rules[1..], comment);
      if comment !in rules[0] {
        assert ([rules[0]] + rest)[1..] == rest;
      } else {
        assert [] + rest == rest;
      }
    }
  }

  lemma {:induction false} GroupOnTop(wanted: seq<Args>, rest: seq<Args>, comment: string)
    requires Group(wanted, comment) && With(rest, comment) == []
    ensures With(wanted + rest, comment) == wanted && With(Head(wanted + rest), comment) == wanted
  {
    if wanted == [] {
      assert wanted + rest == rest;
      HeadIsPrefix(rest);
      var h := |Head(rest)|;
      assert rest == rest[..h] + rest[h..];
      WithAppend(rest[..h], rest[h..], comment);
    } else {
      assert (wanted + rest)[1..] == wanted[1..] + rest;
      GroupOnTop(wanted[1..], rest, comment);
      var head := Head(wanted[1..] + rest);
      assert ([wanted[0]] + head)[1..] == head;
    }
  }

  /** From any chain, whatever an interrupted run left: the group a complete run leaves is in place, so the
      next run has nothing to do. */
  lemma SyncConverges(chain: seq<Args>, wanted: seq<Args>, comment: string)
    requires Group(wanted, comment)
    ensures Plan(wanted + Without(chain, comment), wanted, comment) == ([], [])
  {
    AllOthers(chain, comment);
    GroupOnTop(wanted, Without(chain, comment), comment);
  }
}
