/** A declarative form of the classifiers: an ordered table of signatures
    (status codes, a phrase in the reason, a phrase in the final URL) and what
    each decides. The first signature that matches decides; a reply that matches
    none is unrecognised. Each provider module proves its hand-written decision
    chain equal to such a table. */
module Rules {
  import opened Replies

  /** The status codes a signature accepts. */
  datatype Codes = AnyCode | CodesIn(codes: set<int>)

  /** What a matching signature decides. A report takes its target from the
      final URL, or from the first redirect when `fromHistory` is set, and asks
      for the listing of the final URL plus `listSuffix` when one is given. */
  datatype Verdict =
    | Absent
    | Report(key: string, msg: string, access: Option<Access>, fromHistory: bool, listSuffix: Option<string>)
    | Stop

  /** An empty phrase accepts any reason or URL. */
  datatype Rule = Rule(codes: Codes, reasonHas: string, urlHas: string, verdict: Verdict)

  predicate Matches(rule: Rule, reply: Reply) {
    && (rule.codes.AnyCode? || reply.status in rule.codes.codes)
    && Contains(reply.reason, rule.reasonHas)
    && Contains(reply.url, rule.urlHas)
  }

  function Apply(v: Verdict, reply: Reply): Outcome
  {
    match v
    case Absent => Nothing
    case Stop => Breakout
    case Report(key, msg, access, fromHistory, listSuffix) =>
      if fromHistory && reply.history == [] then Fault
      else
        var target := if fromHistory then reply.history[0] else reply.url;
        var listing := if listSuffix.Some? then Some(reply.url + listSuffix.value) else None;
        Finding(key, msg, access, target, listing)
  }

  /** First match wins; no match is the "unknown status" diagnostic. */
  function Classify(rules: seq<Rule>, reply: Reply): Outcome
  {
    if rules == [] then Unknown
    else if Matches(rules[0], reply) then Apply(rules[0].verdict, reply)
    else Classify(rules[1..], reply)
  }

  /** A table answers Unknown exactly when no signature matches. */
  lemma {:induction false} ClassifyUnknown(rules: seq<Rule>, reply: Reply)
    ensures (forall i | 0 <= i < |rules| :: !Matches(rules[i], reply)) <==> Classify(rules, reply) == Unknown
  {
    if rules != [] && !Matches(rules[0], reply) {
      ClassifyUnknown(rules[1..], reply);
      assert forall i | 1 <= i < |rules| :: rules[i] == rules[1..][i - 1];
    }
  }

  /** Otherwise the first matching signature decides. */
  lemma ClassifyFirstMatch(rules: seq<Rule>, reply: Reply)
    ensures forall i | 0 <= i < |rules| ::
      Matches(rules[i], reply) && (forall j | 0 <= j < i :: !Matches(rules[j], reply)) ==>
        Classify(rules, reply) == Apply(rules[i].verdict, reply)
  {
    forall i | 0 <= i < |rules| && Matches(rules[i], reply) && (forall j | 0 <= j < i :: !Matches(rules[j], reply))
      ensures Classify(rules, reply) == Apply(rules[i].verdict, reply)
    {
      FirstMatchDecides(rules, reply, i);
    }
  }

  /** One signature at a time: the head decides if it matches, else the rest. */
  lemma ClassifyStep(rules: seq<Rule>, reply: Reply)
    requires rules != []
    ensures Classify(rules, reply) ==
      if Matches(rules[0], reply) then Apply(rules[0].verdict, reply) else Classify(rules[1..], reply)
  {
  }

  /** Signatures that do not match can be dropped from the front of a table. */
  lemma {:induction false} ClassifySkip(rules: seq<Rule>, reply: Reply, k: nat)
    requires k <= |rules|
    requires forall j | 0 <= j < k :: !Matches(rules[j], reply)
    ensures Classify(rules, reply) == Classify(rules[k..], reply)
  {
    if k > 0 {
      ClassifyStep(rules, reply);
      assert forall j | 0 <= j < k - 1 :: rules[1..][j] == rules[j + 1];
      ClassifySkip(rules[1..], reply, k - 1);
      assert rules[1..][k - 1..] == rules[k..];
    }
  }

  /** The first matching signature decides; past the end, the reply is unknown. */
  lemma FirstMatchDecides(rules: seq<Rule>, reply: Reply, k: nat)
    requires k <= |rules|
    requires forall j | 0 <= j < k :: !Matches(rules[j], reply)
    requires k < |rules| ==> Matches(rules[k], reply)
    ensures Classify(rules, reply) == if k < |rules| then Apply(rules[k].verdict, reply) else Unknown
  {
    ClassifySkip(rules, reply, k);
    if k < |rules| {
      ClassifyStep(rules[k..], reply);
    } else {
      assert rules[k..] == [];
    }
  }
}
