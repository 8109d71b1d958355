/** The candidate builders shared by the provider checks: each kept name gets
    a fixed prefix and suffix (a bucket host, a DNS suffix, a listing path). */
module Targets {
  import opened Seqs

  /** `[pre + name + post for name in names]`. */
  function Wrap(names: seq<string>, pre: string, post: string): seq<string> {
    seq(|names|, i requires 0 <= i < |names| => pre + names[i] + post)
  }

  /** Cutting the fixed prefix and suffix off a candidate. */
  function Unwrap(candidate: string, pre: string, post: string): string
    requires |pre| + |post| <= |candidate|
  {
    candidate[|pre|..|candidate| - |post|]
  }

  /** The builders lose nothing: every candidate gives back its name. */
  lemma WrapUnwrap(names: seq<string>, pre: string, post: string)
    ensures forall i | 0 <= i < |names| ::
      |pre| + |post| <= |Wrap(names, pre, post)[i]| &&
      Unwrap(Wrap(names, pre, post)[i], pre, post) == names[i]
  {
    forall i | 0 <= i < |names|
      ensures Unwrap(Wrap(names, pre, post)[i], pre, post) == names[i]
    {
      var c := pre + names[i] + post;
      assert c[|pre|..|c| - |post|] == names[i];
    }
  }

  /** A candidate list is exactly the wrapped names. */
  lemma WrapMembership(names: seq<string>, pre: string, post: string, name: string)
    ensures name in names ==> pre + name + post in Wrap(names, pre, post)
    ensures pre + name + post in Wrap(names, pre, post) ==> name in names
  {
    var w := Wrap(names, pre, post);
    if name in names {
      var i :| 0 <= i < |names| && names[i] == name;
      assert w[i] == pre + name + post;
    }
    if pre + name + post in w {
      var i :| 0 <= i < |w| && w[i] == pre + name + post;
      WrapUnwrap(names, pre, post);
      assert Unwrap(w[i], pre, post) == name;
    }
  }

  lemma WrapConcat(a: seq<string>, b: seq<string>, pre: string, post: string)
    ensures Wrap(a + b, pre, post) == Wrap(a, pre, post) + Wrap(b, pre, post)
  {
  }

  /** A builder loop: `for name in names: if keep(name): candidates.append(...)`. */
  method Decorate(names: seq<string>, pre: string, post: string, keep: string -> bool)
    returns (candidates: seq<string>)
    ensures candidates == Wrap(Filter(names, keep), pre, post)
  {
    candidates := [];
    for i := 0 to |names|
      invariant candidates == Wrap(Filter(names[..i], keep), pre, post)
    {
      assert names[..i + 1][..i] == names[..i];
      if keep(names[i]) {
        WrapConcat(Filter(names[..i], keep), [names[i]], pre, post);
        candidates := candidates + [pre + names[i] + post];
      }
    }
    assert names[..|names|] == names;
  }

  /** A builder with no condition keeps every name, in order. */
  method DecorateAll(names: seq<string>, pre: string, post: string) returns (candidates: seq<string>)
    ensures candidates == Wrap(names, pre, post)
    ensures |candidates| == |names|
  {
    candidates := Decorate(names, pre, post, _ => true);
    FilterAll(names, _ => true);
  }
}
