/** Candidate-name generation of cloud_enum.py: keywords are cleaned to the
    hostname alphabet and combined with every mutation in six ways. Nothing is
    de-duplicated and nothing is dropped for length. */
module Names {

  /** The characters `clean_text` keeps: [a-z0-9.-]. */
  predicate Allowed(c: char) {
    'a' <= c <= 'z' || '0' <= c <= '9' || c == '.' || c == '-'
  }

  predicate Clean(s: string) {
    forall i | 0 <= i < |s| :: Allowed(s[i])
  }

  /** `str.lower()` on one ASCII character. */
  function Lower(c: char): char {
    if 'A' <= c <= 'Z' then (c as int + 32) as char else c
  }

  /** `clean_text`: lowercase, then delete every character outside [a-z0-9.-]. */
  function CleanText(text: string): (r: string)
    ensures Clean(r) && |r| <= |text|
  {
    if text == [] then []
    else
      var c := Lower(text[0]);
      (if Allowed(c) then [c] else []) + CleanText(text[1..])
  }

  lemma {:induction false} CleanTextConcat(a: string, b: string)
    ensures CleanText(a + b) == CleanText(a) + CleanText(b)
  {
    if a != [] {
      assert (a + b)[1..] == a[1..] + b;
      CleanTextConcat(a[1..], b);
    } else {
      assert a + b == b;
    }
  }

  /** A string already in the hostname alphabet is left as it is. */
  lemma {:induction false} CleanTextFixesClean(s: string)
    requires Clean(s)
    ensures CleanText(s) == s
  {
    if s != [] {
      CleanTextFixesClean(s[1..]);
    }
  }

  /** Cleaning twice is cleaning once. */
  lemma CleanTextIdempotent(s: string)
    ensures CleanText(CleanText(s)) == CleanText(s)
  {
    CleanTextFixesClean(CleanText(s));
  }

  /** Lowercasing comes first: an ASCII capital survives as its small letter. */
  lemma CleanTextUpper(a: string, c: char, b: string)
    requires 'A' <= c <= 'Z'
    ensures 'a' <= Lower(c) <= 'z'
    ensures CleanText(a + [c] + b) == CleanText(a) + [Lower(c)] + CleanText(b)
  {
    CleanTextConcat(a + [c], b);
    CleanTextConcat(a, [c]);
  }

  /** Any other character outside the alphabet is deleted, not escaped. */
  lemma CleanTextDrops(a: string, c: char, b: string)
    requires !Allowed(Lower(c))
    ensures CleanText(a + [c] + b) == CleanText(a) + CleanText(b)
  {
    CleanTextConcat(a + [c], b);
    CleanTextConcat(a, [c]);
  }

  /** The six combinations of a cleaned base and a cleaned mutation, in the
      order they are appended: three appends, then three prepends. */
  function Variants(base: string, mutation: string): seq<string> {
    [base + mutation, base + "." + mutation, base + "-" + mutation,
     mutation + base, mutation + "." + base, mutation + "-" + base]
  }

  /** The combinations of one cleaned base with every mutation, in mutation order. */
  function Mutated(base: string, mutations: seq<string>): seq<string>
  {
    if mutations == [] then []
    else
      Mutated(base, mutations[..|mutations| - 1])
        + Variants(base, CleanText(mutations[|mutations| - 1]))
  }

  /** Everything `build_names` appends for one base. */
  function Group(base: string, mutations: seq<string>): seq<string> {
    [CleanText(base)] + Mutated(CleanText(base), mutations)
  }

  /** The whole list `build_names` returns. */
  function Expand(bases: seq<string>, mutations: seq<string>): seq<string>
  {
    if bases == [] then []
    else Expand(bases[..|bases| - 1], mutations) + Group(bases[|bases| - 1], mutations)
  }

  /** The inner loop of `build_names`: the six combinations of one cleaned
      base with each mutation, cleaned, appended in mutation order. */
  method AppendMutations(names: seq<string>, base: string, mutations: seq<string>) returns (out: seq<string>)
    ensures out == names + Mutated(base, mutations)
  {
    out := names;
    for j := 0 to |mutations|
      invariant out == names + Mutated(base, mutations[..j])
    {
      var mutation := CleanText(mutations[j]);
      assert mutations[..j + 1][..j] == mutations[..j];
      out := out + [base + mutation, base + "." + mutation, base + "-" + mutation,
                    mutation + base, mutation + "." + base, mutation + "-" + base];
    }
    assert mutations[..|mutations|] == mutations;
  }

  /** `build_names`: nested loops appending to `names`. */
  method BuildNames(baseList: seq<string>, mutations: seq<string>) returns (names: seq<string>)
    ensures names == Expand(baseList, mutations)
    ensures |names| == |baseList| * (1 + 6 * |mutations|)
    ensures forall i | 0 <= i < |names| :: Clean(names[i])
  {
    names := [];
    for i := 0 to |baseList|
      invariant names == Expand(baseList[..i], mutations)
    {
      var base := CleanText(baseList[i]);
      names := AppendMutations(names + [base], base, mutations);
      assert baseList[..i + 1][..i] == baseList[..i];
    }
    assert baseList[..|baseList|] == baseList;
    ExpandLength(baseList, mutations);
    ExpandClean(baseList, mutations);
  }

  /** `main`: a quick scan builds the names from an empty mutation list. */
  method ScanNames(keywords: seq<string>, quickscan: bool, fileMutations: seq<string>)
    returns (names: seq<string>)
    ensures names == Expand(keywords, if quickscan then [] else fileMutations)
    ensures quickscan ==> names == CleanAll(keywords)
  {
    var mutations := if quickscan then [] else fileMutations;
    names := BuildNames(keywords, mutations);
    if quickscan {
      ExpandQuickscan(keywords);
    }
  }

  lemma {:induction false} MutatedLength(base: string, mutations: seq<string>)
    ensures |Mutated(base, mutations)| == 6 * |mutations|
  {
    if mutations != [] {
      MutatedLength(base, mutations[..|mutations| - 1]);
    }
  }

  /** One entry per base plus six per base and mutation; nothing is removed. */
  lemma {:induction false} ExpandLength(bases: seq<string>, mutations: seq<string>)
    ensures |Expand(bases, mutations)| == |bases| * (1 + 6 * |mutations|)
  {
    if bases != [] {
      var init := bases[..|bases| - 1];
      ExpandLength(init, mutations);
      MutatedLength(CleanText(bases[|bases| - 1]), mutations);
      var k := 1 + 6 * |mutations|;
      assert |Expand(bases, mutations)| == |init| * k + k;
      calc {
        |init| * k + k;
        (|init| + 1) * k;
        |bases| * k;
      }
    }
  }

  lemma {:induction false} MutatedClean(base: string, mutations: seq<string>)
    requires Clean(base)
    ensures forall i | 0 <= i < |Mutated(base, mutations)| :: Clean(Mutated(base, mutations)[i])
  {
    if mutations != [] {
      MutatedClean(base, mutations[..|mutations| - 1]);
      var m := CleanText(mutations[|mutations| - 1]);
      assert Clean(".") && Clean("-");
      assert forall v | v in Variants(base, m) :: Clean(v);
    }
  }

  /** Every generated name is in the hostname alphabet [a-z0-9.-]. */
  lemma {:induction false} ExpandClean(bases: seq<string>, mutations: seq<string>)
    ensures forall i | 0 <= i < |Expand(bases, mutations)| :: Clean(Expand(bases, mutations)[i])
  {
    if bases != [] {
      ExpandClean(bases[..|bases| - 1], mutations);
      MutatedClean(CleanText(bases[|bases| - 1]), mutations);
    }
  }

  function CleanAll(bases: seq<string>): seq<string> {
    seq(|bases|, i requires 0 <= i < |bases| => CleanText(bases[i]))
  }

  /** With no mutations the names are the cleaned keywords, in order, with
      duplicates and over-long names kept. */
  lemma {:induction false} ExpandQuickscan(bases: seq<string>)
    ensures Expand(bases, []) == CleanAll(bases)
  {
    if bases != [] {
      ExpandQuickscan(bases[..|bases| - 1]);
    }
  }

  lemma {:induction false} ExpandConcat(a: seq<string>, b: seq<string>, mutations: seq<string>)
    ensures Expand(a + b, mutations) == Expand(a, mutations) + Expand(b, mutations)
  {
    if b == [] {
      assert a + b == a;
    } else {
      var init, last := b[..|b| - 1], b[|b| - 1];
      assert (a + b)[..|a + b| - 1] == a + init && (a + b)[|a + b| - 1] == last;
      ExpandConcat(a, init, mutations);
      calc {
        Expand(a + b, mutations);
        Expand(a + init, mutations) + Group(last, mutations);
        (Expand(a, mutations) + Expand(init, mutations)) + Group(last, mutations);
        Expand(a, mutations) + (Expand(init, mutations) + Group(last, mutations));
        Expand(a, mutations) + Expand(b, mutations);
      }
    }
  }

  /** The names come base by base, in base order: the block of base k sits
      between the blocks of the bases before and after it. */
  lemma ExpandBlocks(bases: seq<string>, mutations: seq<string>, k: nat)
    requires k < |bases|
    ensures Expand(bases, mutations)
      == Expand(bases[..k], mutations) + Group(bases[k], mutations) + Expand(bases[k + 1..], mutations)
  {
    assert bases == bases[..k] + [bases[k]] + bases[k + 1..];
    ExpandConcat(bases[..k] + [bases[k]], bases[k + 1..], mutations);
    ExpandConcat(bases[..k], [bases[k]], mutations);
  }

  lemma {:induction false} MutatedConcat(base: string, a: seq<string>, b: seq<string>)
    ensures Mutated(base, a + b) == Mutated(base, a) + Mutated(base, b)
  {
    if b == [] {
      assert a + b == a;
    } else {
      var init := b[..|b| - 1];
      assert (a + b)[..|a + b| - 1] == a + init;
      MutatedConcat(base, a, init);
    }
  }

  /** Within a base's block, mutation j contributes its six combinations
      after those of the mutations before it. */
  lemma MutatedBlocks(base: string, mutations: seq<string>, j: nat)
    requires j < |mutations|
    ensures Mutated(base, mutations)
      == Mutated(base, mutations[..j]) + Variants(base, CleanText(mutations[j]))
         + Mutated(base, mutations[j + 1..])
  {
    assert mutations == mutations[..j] + [mutations[j]] + mutations[j + 1..];
    MutatedConcat(base, mutations[..j] + [mutations[j]], mutations[j + 1..]);
    MutatedConcat(base, mutations[..j], [mutations[j]]);
    assert ([] + [mutations[j]])[..0] == [];
  }

  /** The worked example: one base, one mutation, seven names. */
  lemma ExpandExample()
    ensures Expand(["ab"], ["cd"]) == ["ab", "abcd", "ab.cd", "ab-cd", "cdab", "cd.ab", "cd-ab"]
  {
    CleanTextFixesClean("ab");
    CleanTextFixesClean("cd");
    assert ["ab"][..0] == [] && ["cd"][..0] == [];
    assert Mutated("ab", ["cd"]) == Variants("ab", "cd");
    assert Group("ab", ["cd"]) == ["ab"] + Variants("ab", "cd");
    assert Expand(["ab"], ["cd"]) == Group("ab", ["cd"]);
    assert "ab" + "cd" == "abcd";
    assert "ab" + "." + "cd" == "ab.cd";
    assert "ab" + "-" + "cd" == "ab-cd";
    assert "cd" + "ab" == "cdab";
    assert "cd" + "." + "ab" == "cd.ab";
    assert "cd" + "-" + "ab" == "cd-ab";
  }

  /** An empty mutation gives the base back three times: duplicates are kept. */
  lemma EmptyMutationRepeatsBase()
    ensures Expand(["a"], [""]) == ["a", "a", "a.", "a-", "a", ".a", "-a"]
  {
    CleanTextFixesClean("a");
    assert ["a"][..0] == [] && [""][..0] == [];
    assert CleanText("") == "";
    assert Mutated("a", [""]) == Variants("a", "");
    assert Group("a", [""]) == ["a"] + Variants("a", "");
    assert Expand(["a"], [""]) == Group("a", [""]);
    assert "a" + "" == "a" && "" + "a" == "a";
    assert "a" + "." + "" == "a." && "a" + "-" + "" == "a-";
    assert "" + "." + "a" == ".a" && "" + "-" + "a" == "-a";
  }
}
