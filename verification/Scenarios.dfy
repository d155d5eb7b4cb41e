/** The scenario queue: first match wins, consume-once rules are deleted in place, hits are counted. */
module Scenarios {
  import opened Text
  import opened Decimal

  const WILDCARD := "*"

  datatype Action = TransientFailure | OtherAction(name: string)

  datatype Rule = Rule(id: string, bank: string, endpoint: string, paymentID: string, orderID: string,
                       merchantID: string, action: Action, consumeOnce: bool, hitCount: nat, createdAt: int)

  datatype MatchInput = MatchInput(bank: string, endpoint: string, paymentID: string, orderID: string,
                                   merchantID: string)

  /** An empty bank is `bank.Any`, a wildcard on either side. */
  predicate MatchBank(rule: string, actual: string) {
    rule == "" || actual == "" || rule == actual
  }

  predicate MatchValue(rule: string, actual: string) {
    rule == "" || rule == WILDCARD || rule == actual
  }

  predicate Matches(r: Rule, req: MatchInput) {
    && MatchBank(r.bank, req.bank) && MatchValue(r.endpoint, req.endpoint) && MatchValue(r.paymentID, req.paymentID)
    && MatchValue(r.orderID, req.orderID) && MatchValue(r.merchantID, req.merchantID)
  }

  function Hit(r: Rule): Rule { r.(hitCount := r.hitCount + 1) }

  // ------------------------------------------------------------ lists of rules

  function Without(rules: seq<Rule>, id: string): seq<Rule> {
    if rules == [] then []
    else Without(rules[..|rules| - 1], id) + (if rules[|rules| - 1].id != id then [rules[|rules| - 1]] else [])
  }

  lemma NothingWithout(rules: seq<Rule>, id: string)
    ensures Without(rules[..0], id) == []
  {
  }

  lemma WithoutNext(rules: seq<Rule>, i: nat, id: string)
    requires i < |rules|
    ensures Without(rules[..i + 1], id)
         == if rules[i].id != id then Without(rules[..i], id) + [rules[i]] else Without(rules[..i], id)
  {
    assert rules[..i + 1][..i] == rules[..i];
    assert Without(rules[..i], id) + [] == Without(rules[..i], id);
  }

  /** The position of the first rule that matches, the length when none does. */
  function FirstMatch(rules: seq<Rule>, req: MatchInput): (i: nat)
    ensures i <= |rules|
    ensures i < |rules| ==> Matches(rules[i], req)
    ensures forall k :: 0 <= k < i ==> !Matches(rules[k], req)
  {
    if rules == [] || Matches(rules[0], req) then 0 else 1 + FirstMatch(rules[1..], req)
  }

  function MatchRules(rules: seq<Rule>, req: MatchInput): (seq<Rule>, Option<Rule>) {
    var i := FirstMatch(rules, req);
    if i == |rules| then (rules, None)
    else if rules[i].consumeOnce then (rules[..i] + rules[i + 1..], Some(Hit(rules[i])))
    else (rules[i := Hit(rules[i])], Some(Hit(rules[i])))
  }

  function Named(r: Rule, n: nat): Rule {
    if r.id == "" then r.(id := "sc-" + FormatUint(n)) else r
  }

  // ----------------------------------------------------------- the store itself

  /** The slice `scenarios`: the first `len` slots of a shared array, rewritten in place. */
  class ScenarioStore {
    var slots: array<Rule>
    var len: nat
    var nextID: nat

    ghost predicate Valid()
      reads this
    {
      len <= slots.Length
    }

    ghost function Rules(): seq<Rule>
      requires Valid()
      reads this, slots
    {
      slots[..len]
    }

    constructor ()
      ensures Valid() && fresh(slots) && Rules() == [] && nextID == 0
    {
      slots := new Rule[0];
      len, nextID := 0, 0;
    }

    /** Makes room behind the rules: a bigger array, or the same one when there is room. */
    method Grow()
      requires Valid()
      modifies this`slots
      ensures Valid() && len < slots.Length && (slots == old(slots) || fresh(slots))
      ensures forall i :: 0 <= i < len ==> slots[i] == old(slots[i])
    {
      if len == slots.Length {
        var bigger := new Rule[2 * len + 1];
        forall i | 0 <= i < len { bigger[i] := slots[i]; }
        slots := bigger;
      }
    }

    method Add(r: Rule)
      requires Valid()
      modifies this, slots
      ensures Valid() && (slots == old(slots) || fresh(slots))
      ensures nextID == old(nextID) + (if r.id == "" then 1 else 0)
      ensures Rules() == old(Rules()) + [Named(r, nextID)]
    {
      if r.id == "" { nextID := nextID + 1; }
      ghost var before := slots[..len];
      Grow();
      var named := Named(r, nextID);
      slots[len] := named;
      len := len + 1;
      assert forall i :: 0 <= i < len ==> slots[i] == (before + [named])[i];
    }

    /** Filters into the same backing array: the write position never passes the read position. */
    method Remove(id: string)
      requires Valid()
      modifies this`len, slots
      ensures Valid() && slots == old(slots) && nextID == old(nextID)
      ensures Rules() == Without(old(Rules()), id)
    {
      hide Without;
      ghost var before, out: seq<Rule> := slots[..len], [];
      NothingWithout(before, id);
      var kept := 0;
      for i := 0 to len
        invariant kept == |out| <= i && len == |before| == old(len)
        invariant out == Without(before[..i], id)
        invariant forall k :: 0 <= k < kept ==> slots[k] == out[k]
        invariant forall k :: i <= k < len ==> slots[k] == before[k]
      {
        WithoutNext(before, i, id);
        var r := slots[i];
        if r.id != id {
          slots[kept] := r;
          kept, out := kept + 1, out + [r];
        }
      }
      assert before[..|before|] == before;
      len := kept;
      assert slots[..len] == out;
    }

    method Match(req: MatchInput) returns (matched: Option<Rule>)
      requires Valid()
      modifies this`len, slots
      ensures Valid() && slots == old(slots) && nextID == old(nextID)
      ensures (Rules(), matched) == MatchRules(old(Rules()), req)
    {
      ghost var before := slots[..len];
      matched := None;
      for i := 0 to len
        invariant slots[..len] == before
        invariant forall k :: 0 <= k < i ==> !Matches(before[k], req)
      {
        if !Matches(slots[i], req) { continue; }
        assert FirstMatch(before, req) == i;
        assert forall k :: 0 <= k < len ==> slots[k] == before[k];
        var hit := Hit(slots[i]);
        slots[i] := hit;
        matched := Some(hit);
        if hit.consumeOnce {
          DeleteAt(i, before);
        } else {
          assert forall k :: 0 <= k < len ==> slots[k] == before[i := hit][k];
        }
        return;
      }
    }

    /** `append(scenarios[:i], scenarios[i+1:]...)`. */
    method DeleteAt(i: nat, ghost before: seq<Rule>)
      requires Valid() && i < len && |before| == len
      requires forall k :: 0 <= k < len && k != i ==> slots[k] == before[k]
      modifies this`len, slots
      ensures Valid() && slots == old(slots)
      ensures Rules() == before[..i] + before[i + 1..]
    {
      ghost var out := before[..i] + before[i + 1..];
      for j := i to len - 1
        invariant len == old(len)
        invariant forall k :: 0 <= k < j ==> slots[k] == out[k]
        invariant forall k :: j < k < len ==> slots[k] == before[k]
      {
        assert out[j] == before[j + 1];
        slots[j] := slots[j + 1];
      }
      len := len - 1;
    }

    method Reset()
      modifies this
      ensures Valid() && fresh(slots) && Rules() == [] && nextID == old(nextID)
    {
      slots := new Rule[0];
      len := 0;
    }
  }

  // ------------------------------------------- the immutable list it stands for

  /** A rule as it was added, how often it has fired, and whether it was removed. */
  datatype Kept = Kept(rule: Rule, fired: nat, removed: bool)

  predicate Live(k: Kept) {
    !k.removed && (k.rule.consumeOnce ==> k.fired == 0)
  }

  function Today(k: Kept): Rule { k.rule.(hitCount := k.rule.hitCount + k.fired) }

  function LiveRules(log: seq<Kept>): seq<Rule> {
    if log == [] then [] else (if Live(log[0]) then [Today(log[0])] else []) + LiveRules(log[1..])
  }

  function FirstLive(log: seq<Kept>, req: MatchInput): (i: nat)
    ensures i <= |log|
    ensures i < |log| ==> Live(log[i]) && Matches(log[i].rule, req)
    ensures forall k :: 0 <= k < i ==> !(Live(log[k]) && Matches(log[k].rule, req))
  {
    if log == [] || (Live(log[0]) && Matches(log[0].rule, req)) then 0 else 1 + FirstLive(log[1..], req)
  }

  function Fire(log: seq<Kept>, i: nat): seq<Kept>
    requires i < |log|
  {
    log[i := log[i].(fired := log[i].fired + 1)]
  }

  function Removed(log: seq<Kept>, id: string): seq<Kept> {
    if log == [] then []
    else [if log[0].rule.id == id then log[0].(removed := true) else log[0]] + Removed(log[1..], id)
  }

  function AllRemoved(log: seq<Kept>): seq<Kept> {
    if log == [] then [] else [log[0].(removed := true)] + AllRemoved(log[1..])
  }

  lemma LiveCons(k: Kept, rest: seq<Kept>)
    ensures LiveRules([k] + rest) == (if Live(k) then [Today(k)] + LiveRules(rest) else LiveRules(rest))
  {
    assert ([k] + rest)[1..] == rest;
    assert [] + LiveRules(rest) == LiveRules(rest);
  }

  /** What a match leaves live and answers. */
  function MatchList(log: seq<Kept>, req: MatchInput): (seq<Rule>, Option<Rule>) {
    var i := FirstLive(log, req);
    if i == |log| then (LiveRules(log), None) else (LiveRules(Fire(log, i)), Some(Hit(Today(log[i]))))
  }

  lemma MatchRulesHead(r: Rule, rest: seq<Rule>, req: MatchInput)
    requires !Matches(r, req)
    ensures MatchRules([r] + rest, req) == ([r] + MatchRules(rest, req).0, MatchRules(rest, req).1)
  {
    var i := FirstMatch(rest, req);
    assert ([r] + rest)[1..] == rest;
    if i < |rest| {
      assert [r] + (rest[..i] + rest[i + 1..]) == ([r] + rest)[..i + 1] + ([r] + rest)[i + 2..];
      assert [r] + rest[i := Hit(rest[i])] == ([r] + rest)[i + 1 := Hit(rest[i])];
    }
  }

  lemma MatchHead(k: Kept, rest: seq<Kept>, req: MatchInput)
    requires Live(k) && Matches(k.rule, req)
    ensures MatchRules(LiveRules([k] + rest), req)
         == (LiveRules([k.(fired := k.fired + 1)] + rest), Some(Hit(Today(k))))
  {
    hide Matches, MatchRules, LiveRules;
    var k' := k.(fired := k.fired + 1);
    MatchesToday(k, req);
    LiveCons(k, rest);
    LiveCons(k', rest);
    MatchRulesFirst(Today(k), LiveRules(rest), req);
    assert Today(k') == Hit(Today(k));
  }

  lemma MatchRulesFirst(r: Rule, rest: seq<Rule>, req: MatchInput)
    requires Matches(r, req)
    ensures MatchRules([r] + rest, req) == (if r.consumeOnce then rest else [Hit(r)] + rest, Some(Hit(r)))
  {
    hide Matches;
    hide FirstMatch;
    hide Hit;
    var all := [r] + rest;
    assert all[0] == r;
    assert FirstMatch(all, req) == 0;
    assert all[1..] == rest;
    if r.consumeOnce {
      assert all[..0] + rest == rest;
    } else {
      assert all[0 := Hit(r)] == [Hit(r)] + rest;
    }
  }

  lemma MatchesToday(k: Kept, req: MatchInput)
    ensures Matches(Today(k), req) <==> Matches(k.rule, req)
  {
  }

  lemma {:induction false} MatchRefines(log: seq<Kept>, req: MatchInput)
    ensures MatchRules(LiveRules(log), req) == MatchList(log, req)
  {
    if log != [] {
      var k, rest := log[0], log[1..];
      assert log == [k] + rest;
      if Live(k) && Matches(k.rule, req) {
        MatchHead(k, rest, req);
        assert Fire(log, 0) == [k.(fired := k.fired + 1)] + rest;
        hide MatchRules, LiveRules, Matches;
      } else {
        MatchRefines(rest, req);
        MatchSkips(k, rest, req);
      }
    }
  }

  lemma MatchSkips(k: Kept, rest: seq<Kept>, req: MatchInput)
    requires !(Live(k) && Matches(k.rule, req)) && MatchRules(LiveRules(rest), req) == MatchList(rest, req)
    ensures MatchRules(LiveRules([k] + rest), req) == MatchList([k] + rest, req)
  {
    hide Matches, MatchRules, LiveRules;
    var log, i := [k] + rest, FirstLive(rest, req);
    MatchesToday(k, req);
    LiveCons(k, rest);
    assert log[0] == k && log[1..] == rest;
    assert FirstLive(log, req) == i + 1;
    hide FirstLive;
    if i < |rest| {
      assert Fire(log, i + 1) == [k] + Fire(rest, i);
      LiveCons(k, Fire(rest, i));
    }
    if Live(k) { MatchRulesHead(Today(k), LiveRules(rest), req); }
  }

  lemma {:induction false} WithoutConcat(a: seq<Rule>, b: seq<Rule>, id: string)
    ensures Without(a + b, id) == Without(a, id) + Without(b, id)
  {
    if b == [] {
      assert a + b == a;
    } else {
      assert (a + b)[..|a + b| - 1] == a + b[..|b| - 1];
      WithoutConcat(a, b[..|b| - 1], id);
    }
  }

  lemma {:induction false} RemoveRefines(log: seq<Kept>, id: string)
    ensures Without(LiveRules(log), id) == LiveRules(Removed(log, id))
  {
    if log != [] {
      var k, rest := log[0], log[1..];
      RemoveRefines(rest, id);
      assert log == [k] + rest;
      var k' := if k.rule.id == id then k.(removed := true) else k;
      assert Removed(log, id) == [k'] + Removed(rest, id);
      hide LiveRules, Removed;
      LiveCons(k, rest);
      LiveCons(k', Removed(rest, id));
      if Live(k) {
        WithoutConcat([Today(k)], LiveRules(rest), id);
        WithoutOne(Today(k), id);
        assert [] + Without(LiveRules(rest), id) == Without(LiveRules(rest), id);
      }
      hide Without;
    }
  }

  lemma WithoutOne(r: Rule, id: string)
    ensures Without([r], id) == if r.id != id then [r] else []
  {
    assert [r][..0] == [];
  }

  lemma {:induction false} NothingLive(log: seq<Kept>)
    ensures LiveRules(AllRemoved(log)) == []
  {
    if log != [] {
      NothingLive(log[1..]);
      assert AllRemoved(log)[1..] == AllRemoved(log[1..]);
    }
  }

  lemma {:induction false} AddRefines(log: seq<Kept>, r: Rule)
    ensures LiveRules(log + [Kept(r, 0, false)]) == LiveRules(log) + [r]
  {
    var fresh1 := Kept(r, 0, false);
    if log == [] {
      LiveCons(fresh1, []);
      assert [] + [fresh1] == [fresh1] == [fresh1] + [];
    } else {
      var k, rest := log[0], log[1..];
      AddRefines(rest, r);
      assert log == [k] + rest && log + [fresh1] == [k] + (rest + [fresh1]);
      hide LiveRules;
      LiveCons(k, rest);
      LiveCons(k, rest + [fresh1]);
      Assoc([Today(k)], LiveRules(rest), [r]);
    }
  }

  // ------------------------------------------------------------------- traces

  datatype Call = Add(r: Rule) | Remove(id: string) | Match(req: MatchInput) | Clear

  datatype StoreState = StoreState(rules: seq<Rule>, nextID: nat, answers: seq<Option<Rule>>)

  /** An answer names the rule by its place in the list of all rules ever added. */
  datatype Answer = Answer(place: nat, rule: Rule)

  datatype ListState = ListState(log: seq<Kept>, nextID: nat, answers: seq<Option<Answer>>)

  function NextNumber(r: Rule, n: nat): nat { if r.id == "" then n + 1 else n }

  function StoreStep(s: StoreState, c: Call): StoreState {
    match c
    case Add(r) => StoreState(s.rules + [Named(r, NextNumber(r, s.nextID))], NextNumber(r, s.nextID), s.answers)
    case Remove(id) => s.(rules := Without(s.rules, id))
    case Match(req) => var (rules, a) := MatchRules(s.rules, req); s.(rules := rules, answers := s.answers + [a])
    case Clear => s.(rules := [])
  }

  function ListStep(s: ListState, c: Call): ListState {
    match c
    case Add(r) =>
      ListState(s.log + [Kept(Named(r, NextNumber(r, s.nextID)), 0, false)], NextNumber(r, s.nextID), s.answers)
    case Remove(id) => s.(log := Removed(s.log, id))
    case Match(req) =>
      var i := FirstLive(s.log, req);
      if i == |s.log| then s.(answers := s.answers + [None])
      else s.(log := Fire(s.log, i), answers := s.answers + [Some(Answer(i, Hit(Today(s.log[i]))))])
    case Clear => s.(log := AllRemoved(s.log))
  }

  function RunStore(calls: seq<Call>): StoreState {
    if calls == [] then StoreState([], 0, []) else StoreStep(RunStore(calls[..|calls| - 1]), calls[|calls| - 1])
  }

  function RunList(calls: seq<Call>): ListState {
    if calls == [] then ListState([], 0, []) else ListStep(RunList(calls[..|calls| - 1]), calls[|calls| - 1])
  }

  ghost predicate SameAnswers(a: seq<Option<Rule>>, b: seq<Option<Answer>>) {
    |a| == |b| && forall i :: 0 <= i < |a| ==> a[i] == (if b[i].Some? then Some(b[i].value.rule) else None)
  }

  /** On every trace the store holds the live rules of the immutable list and gives the same answers. */
  lemma {:induction false} StoreRefinesList(calls: seq<Call>)
    ensures var s, l := RunStore(calls), RunList(calls);
            s.rules == LiveRules(l.log) && s.nextID == l.nextID && SameAnswers(s.answers, l.answers)
  {
    if calls != [] {
      var front, c := calls[..|calls| - 1], calls[|calls| - 1];
      StoreRefinesList(front);
      var l := RunList(front);
      match c
      case Add(r) => AddRefines(l.log, Named(r, NextNumber(r, l.nextID)));
      case Remove(id) => RemoveRefines(l.log, id);
      case Match(req) => MatchRefines(l.log, req);
      case Clear => NothingLive(l.log);
    }
  }

  /** How many of the answers came from this rule. */
  function Times(answers: seq<Option<Answer>>, place: nat): nat {
    if answers == [] then 0
    else
      var last := answers[|answers| - 1];
      Times(answers[..|answers| - 1], place) + (if last.Some? && last.value.place == place then 1 else 0)
  }

  /** Every answer carries the number of times its rule has fired, this time included. */
  ghost predicate Counted(s: ListState) {
    && (forall k :: 0 <= k < |s.log| ==>
          s.log[k].fired == Times(s.answers, k) && (s.log[k].rule.consumeOnce ==> s.log[k].fired <= 1))
    && (forall k :: k >= |s.log| ==> Times(s.answers, k) == 0)
    && (forall j :: 0 <= j < |s.answers| && s.answers[j].Some? ==>
          var a := s.answers[j].value;
          && a.place < |s.log| && a.rule.action == s.log[a.place].rule.action
          && a.rule.hitCount == s.log[a.place].rule.hitCount + Times(s.answers[..j + 1], a.place))
  }

  lemma {:induction false} SameRules(log: seq<Kept>, id: string)
    ensures |Removed(log, id)| == |AllRemoved(log)| == |log|
    ensures forall k :: 0 <= k < |log| ==>
              && Removed(log, id)[k].rule == AllRemoved(log)[k].rule == log[k].rule
              && Removed(log, id)[k].fired == AllRemoved(log)[k].fired == log[k].fired
  {
    if log != [] { SameRules(log[1..], id); }
  }

  lemma TimesAppend(answers: seq<Option<Answer>>, a: Option<Answer>, place: nat)
    ensures Times(answers + [a], place) == Times(answers, place) + (if a.Some? && a.value.place == place then 1 else 0)
  {
    assert (answers + [a])[..|answers|] == answers;
  }

  lemma AnswerKeepsCounted(s: ListState, i: nat)
    requires Counted(s) && i < |s.log| && Live(s.log[i])
    ensures Counted(s.(log := Fire(s.log, i), answers := s.answers + [Some(Answer(i, Hit(Today(s.log[i]))))]))
  {
    var answer := Some(Answer(i, Hit(Today(s.log[i]))));
    var n, answers := |s.answers|, s.answers + [answer];
    forall k: nat ensures Times(answers, k) == Times(s.answers, k) + (if k == i then 1 else 0) {
      TimesAppend(s.answers, answer, k);
    }
    hide Times;
    assert answers[..n + 1] == answers;
    assert forall j {:trigger s.answers[j]} :: 0 <= j < n ==> answers[..j + 1] == s.answers[..j + 1];
  }

  lemma SilenceKeepsCounted(s: ListState)
    requires Counted(s)
    ensures Counted(s.(answers := s.answers + [None]))
  {
    var n, answers := |s.answers|, s.answers + [None];
    forall k: nat ensures Times(answers, k) == Times(s.answers, k) {
      TimesAppend(s.answers, None, k);
    }
    hide Times;
    assert forall j {:trigger s.answers[j]} :: 0 <= j < n ==> answers[..j + 1] == s.answers[..j + 1];
  }

  lemma MatchKeepsCounted(s: ListState, req: MatchInput)
    requires Counted(s)
    ensures Counted(ListStep(s, Call.Match(req)))
  {
    hide Counted;
    var i := FirstLive(s.log, req);
    if i == |s.log| { SilenceKeepsCounted(s); } else { AnswerKeepsCounted(s, i); }
  }

  lemma {:induction false} RunIsCounted(calls: seq<Call>)
    ensures Counted(RunList(calls))
  {
    if calls != [] {
      var front, c := calls[..|calls| - 1], calls[|calls| - 1];
      RunIsCounted(front);
      var l := RunList(front);
      match c
      case Add(r) =>
      case Remove(id) => SameRules(l.log, id);
      case Match(req) => MatchKeepsCounted(l, req);
      case Clear => SameRules(l.log, "");
    }
  }

  /** The branch of the Epay and Flitt ports: a transient failure answers with an error on the first hit only. */
  predicate Fails(r: Rule) { r.action == TransientFailure && r.hitCount == 1 }

  /** A consume-once rule fires at most once in a run, whatever is added, removed and matched. */
  lemma ConsumeOnceFiresOnce(calls: seq<Call>, place: nat)
    requires place < |RunList(calls).log| && RunList(calls).log[place].rule.consumeOnce
    ensures Times(RunList(calls).answers, place) <= 1
  {
    RunIsCounted(calls);
  }

  /** A transient failure rule that starts unused fails exactly the first request it matches. */
  lemma TransientFailsTheFirst(calls: seq<Call>, j: nat)
    requires var s := RunList(calls);
             && j < |s.answers| && s.answers[j].Some?
             && s.answers[j].value.place < |s.log|
             && s.log[s.answers[j].value.place].rule.hitCount == 0
             && s.answers[j].value.rule.action == TransientFailure
    ensures var s := RunList(calls);
            Fails(s.answers[j].value.rule) <==> Times(s.answers[..j], s.answers[j].value.place) == 0
  {
    RunIsCounted(calls);
    var s := RunList(calls);
    assert s.answers[..j + 1][..j] == s.answers[..j];
  }

  // ------------------------------------------------------- which requests a rule is for

  /** Field by field: the rule leaves it open or names what the request has; a request may leave its bank open. */
  predicate Concerns(r: Rule, req: MatchInput) {
    && r.endpoint in {"", "*", req.endpoint}
    && r.paymentID in {"", "*", req.paymentID}
    && r.orderID in {"", "*", req.orderID}
    && r.merchantID in {"", "*", req.merchantID}
    && (req.bank == "" || r.bank in {"", req.bank})
  }

  /** Some field that the rule names is another one in the request. */
  predicate Differs(r: Rule, req: MatchInput) {
    || (r.endpoint != "" && r.endpoint != "*" && r.endpoint != req.endpoint)
    || (r.paymentID != "" && r.paymentID != "*" && r.paymentID != req.paymentID)
    || (r.orderID != "" && r.orderID != "*" && r.orderID != req.orderID)
    || (r.merchantID != "" && r.merchantID != "*" && r.merchantID != req.merchantID)
    || (r.bank != "" && req.bank != "" && r.bank != req.bank)
  }

  lemma MatchesConcerns(r: Rule, req: MatchInput)
    ensures Matches(r, req) <==> Concerns(r, req)
    ensures Matches(r, req) <==> !Differs(r, req)
  {
  }

  /** The latest answer of a run. */
  function LastAnswer(s: StoreState): Option<Rule>
    requires s.answers != []
  {
    s.answers[|s.answers| - 1]
  }

  /**
   * After any run a request is answered by the first stored rule that concerns it, counted once more; without an
   * answer every stored rule names some field on which the request differs.
   */
  lemma {:induction false} AnswersConcernTheRequest(calls: seq<Call>, req: MatchInput)
    ensures var s, s' := RunStore(calls), RunStore(calls + [Call.Match(req)]);
            && |s'.answers| == |s.answers| + 1 && s'.answers[..|s.answers|] == s.answers
            && match LastAnswer(s')
               case None => s'.rules == s.rules && forall k :: 0 <= k < |s.rules| ==> Differs(s.rules[k], req)
               case Some(r) =>
                 exists i :: 0 <= i < |s.rules| && r == s.rules[i].(hitCount := s.rules[i].hitCount + 1)
                             && Concerns(r, req) && forall k :: 0 <= k < i ==> Differs(s.rules[k], req)
  {
    var all := calls + [Call.Match(req)];
    assert all[..|all| - 1] == calls && all[|all| - 1] == Call.Match(req);
    var rules := RunStore(calls).rules;
    var i := FirstMatch(rules, req);
    forall k | 0 <= k < |rules| ensures Matches(rules[k], req) <==> !Differs(rules[k], req) {
      MatchesConcerns(rules[k], req);
    }
    hide RunStore, Differs, Matches;
    if i < |rules| {
      MatchesConcerns(Hit(rules[i]), req);
      HitMatches(rules[i], req);
      hide Concerns;
      assert LastAnswer(StoreStep(RunStore(calls), Call.Match(req))) == Some(Hit(rules[i]));
    }
  }

  lemma HitMatches(r: Rule, req: MatchInput)
    ensures Matches(Hit(r), req) <==> Matches(r, req)
  {
  }

  // ------------------------------------------------------------------ given names

  /** The name under which call `i`, an `Add`, stores its rule. */
  function NameGiven(calls: seq<Call>, i: nat): string
    requires i < |calls| && calls[i].Add?
  {
    var r := calls[i].r;
    Named(r, NextNumber(r, RunStore(calls[..i]).nextID)).id
  }

  lemma {:induction false} NumbersGrow(calls: seq<Call>, i: nat, j: nat)
    requires i <= j <= |calls|
    ensures RunStore(calls[..i]).nextID <= RunStore(calls[..j]).nextID
    decreases j - i
  {
    if i < j {
      assert calls[..i + 1][..i] == calls[..i];
      hide MatchRules, Without, Named;
      assert RunStore(calls[..i + 1]) == StoreStep(RunStore(calls[..i]), calls[i]);
      NumbersGrow(calls, i + 1, j);
    }
  }

  /** No two nameless rules of a run get the same name, and a rule that has one keeps it. */
  lemma {:induction false} NamesAreDistinct(calls: seq<Call>, i: nat, j: nat)
    requires i < j < |calls| && calls[i].Add? && calls[j].Add?
    ensures calls[i].r.id == "" && calls[j].r.id == "" ==> NameGiven(calls, i) != NameGiven(calls, j)
    ensures calls[i].r.id != "" ==> NameGiven(calls, i) == calls[i].r.id
  {
    if calls[i].r.id == "" && calls[j].r.id == "" {
      NumbersGrow(calls, i + 1, j);
      assert calls[..i + 1][..i] == calls[..i];
      assert RunStore(calls[..i + 1]) == StoreStep(RunStore(calls[..i]), calls[i]);
      hide RunStore, FormatUint;
      NumberedDiffer(RunStore(calls[..i]).nextID + 1, RunStore(calls[..j]).nextID + 1);
    }
  }

  lemma NumberedDiffer(m: nat, n: nat)
    ensures m != n ==> "sc-" + FormatUint(m) != "sc-" + FormatUint(n)
  {
    ValueOfFormat(m);
    ValueOfFormat(n);
    hide FormatUint;
    assert ("sc-" + FormatUint(m))[3..] == FormatUint(m) && ("sc-" + FormatUint(n))[3..] == FormatUint(n);
  }
}
