/** cloud_enum/cloud_checkers.py: the access levels and the `Checker` base
    class, which collects target URLs and finding signatures. Python values
    passed to it are modelled by `Value`, so the type checks it makes can be
    stated. */
module CloudCheckers {
  import Replies

  /** `AccessLevel(Enum)`: the three access levels of `Replies.Access`, with
      PUBLIC=1, PROTECTED=2 and DISABLED=3 as their values. */
  function AccessValue(a: Replies.Access): (n: int)
    ensures 1 <= n <= 3
  {
    match a
    case Public => 1
    case Protected => 2
    case Disabled => 3
  }

  /** `AccessLevel(n)`: None where Python raises a ValueError. */
  function AccessLevelOf(n: int): (a: Replies.Option<Replies.Access>)
    ensures a.Some? <==> 1 <= n <= 3
  {
    if n == 1 then Replies.Some(Replies.Public)
    else if n == 2 then Replies.Some(Replies.Protected)
    else if n == 3 then Replies.Some(Replies.Disabled)
    else Replies.None
  }

  /** The enum values and its members are in one-to-one correspondence. */
  lemma AccessLevelRoundTrip(a: Replies.Access, n: int)
    ensures AccessLevelOf(AccessValue(a)) == Replies.Some(a)
    ensures AccessLevelOf(n).Some? ==> AccessValue(AccessLevelOf(n).value) == n
  {
  }

  /** The Python values a caller can pass. */
  datatype Value =
    | VNone
    | VBool(b: bool)
    | VInt(i: int)
    | VStr(s: string)
    | VAccess(level: Replies.Access)
    | VList(items: seq<string>)

  /** Python truthiness. */
  predicate Truthy(v: Value) {
    match v
    case VNone => false
    case VBool(b) => b
    case VInt(i) => i != 0
    case VStr(s) => s != ""
    case VAccess(_) => true
    case VList(items) => items != []
  }

  /** `isinstance(v, (int, type(None)))`; a bool is an int in Python. */
  predicate IsIntOrNone(v: Value) { v.VNone? || v.VInt? || v.VBool? }
  predicate IsStrOrNone(v: Value) { v.VNone? || v.VStr? }
  predicate IsAccessOrNone(v: Value) { v.VNone? || v.VAccess? }
  predicate IsStrOrBool(v: Value) { v.VStr? || v.VBool? }

  /** A signature, the dictionary `add_sig` builds. */
  datatype Sig = Sig(finding: Value, access: Value, respCode: Value, respText: Value, dns: Value)

  function Arg(args: map<string, Value>, key: string, default: Value): Value {
    if key in args then args[key] else default
  }

  /** The signature built from keyword arguments: omitted fields are None,
      except `dns`, which is False; other keywords are ignored. */
  function SigOf(args: map<string, Value>): (sig: Sig)
    ensures "finding" !in args ==> sig.finding == VNone
    ensures "access" !in args ==> sig.access == VNone
    ensures "resp_code" !in args ==> sig.respCode == VNone
    ensures "resp_text" !in args ==> sig.respText == VNone
    ensures "dns" !in args ==> sig.dns == VBool(false)
    ensures "finding" in args ==> sig.finding == args["finding"]
    ensures "access" in args ==> sig.access == args["access"]
    ensures "resp_code" in args ==> sig.respCode == args["resp_code"]
    ensures "resp_text" in args ==> sig.respText == args["resp_text"]
    ensures "dns" in args ==> sig.dns == args["dns"]
  {
    Sig(Arg(args, "finding", VNone), Arg(args, "access", VNone), Arg(args, "resp_code", VNone),
        Arg(args, "resp_text", VNone), Arg(args, "dns", VBool(false)))
  }

  /** What a call returns: normally, or by raising. */
  datatype Status = Ok | ValueError(msg: string) | TypeError(msg: string)

  /** The checks of `add_sig`, in their order: the ValueError comes before
      any type check, and the type checks run field by field. */
  function Validate(sig: Sig): (st: Status)
    ensures st.ValueError? <==> !Truthy(sig.dns) && !Truthy(sig.respCode)
    ensures st == Ok <==>
      && (Truthy(sig.dns) || Truthy(sig.respCode))
      && IsIntOrNone(sig.respCode) && IsStrOrNone(sig.finding) && IsAccessOrNone(sig.access)
      && IsStrOrNone(sig.respText) && IsStrOrBool(sig.dns)
    ensures st == TypeError("Must be an AccessLevel enum") <==>
      (Truthy(sig.dns) || Truthy(sig.respCode)) && IsIntOrNone(sig.respCode) && IsStrOrNone(sig.finding)
      && !IsAccessOrNone(sig.access)
    ensures st == TypeError("Must be a bool") ==> !IsStrOrBool(sig.dns)
  {
    if !Truthy(sig.dns) && !Truthy(sig.respCode) then ValueError("Must have at least resp_code or dns")
    else if !IsIntOrNone(sig.respCode) then TypeError("Must be a string")
    else if !IsStrOrNone(sig.finding) then TypeError("Must be a string")
    else if !IsAccessOrNone(sig.access) then TypeError("Must be an AccessLevel enum")
    else if !IsStrOrNone(sig.respText) then TypeError("Must be a string")
    else if !IsStrOrBool(sig.dns) then TypeError("Must be a bool")
    else Ok
  }

  /** The base class of the HTTP and DNS checkers. */
  class Checker {
    var threads: int
    var targets: set<string>
    var sigs: seq<Sig>

    /** Every stored signature passed the checks. */
    ghost predicate Valid()
      reads this
    {
      forall k | 0 <= k < |sigs| :: Validate(sigs[k]) == Ok
    }

    constructor(threads: int := 5)
      ensures this.threads == threads && targets == {} && sigs == []
      ensures Valid()
    {
      this.threads := threads;
      targets := {};
      sigs := [];
    }

    /** `add_targets`: anything but a list raises a TypeError and changes
        nothing; a list is added to the set, duplicates collapsing. */
    method AddTargets(v: Value) returns (st: Status)
      modifies this
      ensures !v.VList? ==> st == TypeError("Must be a list") && targets == old(targets)
      ensures v.VList? ==> st == Ok && targets == old(targets) + (set t | t in v.items)
      ensures threads == old(threads) && sigs == old(sigs)
    {
      if !v.VList? {
        return TypeError("Must be a list");
      }
      targets := targets + (set t | t in v.items);
      st := Ok;
    }

    /** `add_sig`: on success exactly one signature is appended; on an error
        nothing changes. */
    method AddSig(args: map<string, Value>) returns (st: Status)
      requires Valid()
      modifies this
      ensures st == Validate(SigOf(args))
      ensures st == Ok ==> sigs == old(sigs) + [SigOf(args)]
      ensures st != Ok ==> sigs == old(sigs)
      ensures threads == old(threads) && targets == old(targets)
      ensures Valid()
    {
      var sig := SigOf(args);
      st := Validate(sig);
      if st == Ok {
        sigs := sigs + [sig];
      }
    }
  }

  /** Adding the same list twice changes nothing the second time. */
  lemma AddTargetsIdempotent(targets: set<string>, items: seq<string>)
    ensures (targets + (set t | t in items)) + (set t | t in items) == targets + (set t | t in items)
  {
  }

  /** Four URLs with one repeated leave three targets. */
  lemma FourTargetsOneDuplicate()
    ensures |{} + (set t | t in ["http://google.com", "https://google.com", "https://google2.com", "http://google.com"])| == 3
  {
    var s := set t | t in ["http://google.com", "https://google.com", "https://google2.com", "http://google.com"];
    assert s == {"http://google.com", "https://google.com", "https://google2.com"};
    assert "http://google.com" != "https://google.com";
    assert "https://google.com" != "https://google2.com";
  }

  /** A full HTTP signature and a bare 404 signature are stored with their defaults. */
  lemma HttpSigs()
    ensures var args := map["finding" := VStr("Open GCP Bucket"), "access" := VAccess(Replies.Public), "resp_code" := VInt(200)];
      Validate(SigOf(args)) == Ok &&
      SigOf(args) == Sig(VStr("Open GCP Bucket"), VAccess(Replies.Public), VInt(200), VNone, VBool(false))
    ensures Validate(SigOf(map["resp_code" := VInt(404)])) == Ok
    ensures SigOf(map["resp_code" := VInt(404)]) == Sig(VNone, VNone, VInt(404), VNone, VBool(false))
  {
  }

  /** A DNS-only signature is stored with every HTTP field None. */
  lemma DnsSig()
    ensures Validate(SigOf(map["dns" := VBool(true)])) == Ok
    ensures SigOf(map["dns" := VBool(true)]) == Sig(VNone, VNone, VNone, VNone, VBool(true))
  {
  }

  /** The rejected signatures: no code and no DNS flag, then each wrongly typed field. */
  lemma SigErrors()
    ensures Validate(SigOf(map["resp_text" := VStr("you need more than this")])).ValueError?
    ensures Validate(SigOf(map["resp_code" := VStr("nada")])).TypeError?
    ensures Validate(SigOf(map["finding" := VInt(42), "resp_code" := VInt(200)])).TypeError?
    ensures Validate(SigOf(map["access" := VInt(42), "resp_code" := VInt(200)])).TypeError?
    ensures Validate(SigOf(map["resp_text" := VInt(42), "resp_code" := VInt(200)])).TypeError?
    ensures Validate(SigOf(map["dns" := VInt(42), "resp_code" := VInt(200)])).TypeError?
  {
  }

  /** Truthiness, not presence, decides the ValueError: a code of 0 counts as
      absent, an empty-string code is reported as a ValueError rather than as
      a wrong type, and a bool code is accepted as an int. */
  lemma SigTruthiness()
    ensures Validate(SigOf(map["resp_code" := VInt(0)])).ValueError?
    ensures Validate(SigOf(map["resp_code" := VStr(""), "finding" := VInt(42)])).ValueError?
    ensures Validate(SigOf(map["resp_code" := VBool(true)])) == Ok
    ensures Validate(SigOf(map["dns" := VStr("")])).ValueError?
  {
  }
}
