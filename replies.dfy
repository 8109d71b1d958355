/** What the probing engine hands to a classifier, and what a classifier
    decides. The source's classifiers print or emit a record and may return
    the string 'breakout'; here they return an Outcome instead. */
module Replies {

  datatype Option<+T> = None | Some(value: T)

  /** One HTTP reply: status code, reason phrase, final URL after redirects,
      and the URLs of the redirect history (oldest first). */
  datatype Reply = Reply(status: int, reason: string, url: string, history: seq<string>)

  /** The access levels a finding is reported with ('public', 'protected', 'disabled'). */
  datatype Access = Public | Protected | Disabled

  /** The decision of a classifier for one reply.
      - Nothing: silently ignored (a 404 and similar);
      - Finding: a reported resource with its output key ('' where the
        classifier has none), message, access level (None where the
        classifier only prints a coloured line) and target URL; `listing` is
        the URL whose contents are then listed, when the classifier asks for that;
      - Unknown: the "Unknown status codes being received" diagnostic;
      - Breakout: the classifier returned 'breakout';
      - Fault: the classifier raised (an index into an empty redirect history). */
  datatype Outcome =
    | Nothing
    | Finding(key: string, msg: string, access: Option<Access>, target: string, listing: Option<string>)
    | Unknown
    | Breakout
    | Fault

  /** The batch engine stops delivering after these: 'breakout' makes it
      return, an exception propagates out of it. */
  predicate Stops(o: Outcome) {
    o.Breakout? || o.Fault?
  }

  /** Python's `needle in haystack` on two strings. */
  predicate Contains(haystack: string, needle: string)
    decreases |haystack|
  {
    |needle| <= |haystack| &&
    (haystack[..|needle|] == needle || Contains(haystack[1..], needle))
  }

  /** needle occurs in haystack at offset i. */
  predicate OccursAt(haystack: string, needle: string, i: nat) {
    i + |needle| <= |haystack| && haystack[i..i + |needle|] == needle
  }

  /** Contains is substring occurrence at some offset. */
  lemma {:induction false} ContainsAt(haystack: string, needle: string)
    ensures Contains(haystack, needle) <==> exists i: nat :: OccursAt(haystack, needle, i)
    decreases |haystack|
  {
    if |needle| <= |haystack| && haystack[..|needle|] != needle {
      var tail := haystack[1..];
      ContainsAt(tail, needle);
      if exists i: nat :: OccursAt(haystack, needle, i) {
        var i: nat :| OccursAt(haystack, needle, i);
        assert i != 0;
        assert tail[i - 1..i - 1 + |needle|] == haystack[i..i + |needle|];
        assert OccursAt(tail, needle, i - 1);
      }
      if Contains(tail, needle) {
        var i: nat :| OccursAt(tail, needle, i);
        assert haystack[i + 1..i + 1 + |needle|] == tail[i..i + |needle|];
        assert OccursAt(haystack, needle, i + 1);
      }
    } else if |needle| <= |haystack| {
      assert OccursAt(haystack, needle, 0);
    }
  }

  /** A string occurs in any string built around it. */
  lemma ContainsInfix(a: string, needle: string, b: string)
    ensures Contains(a + needle + b, needle)
  {
    var h := a + needle + b;
    assert h[|a|..|a| + |needle|] == needle;
    assert OccursAt(h, needle, |a|);
    ContainsAt(h, needle);
  }

  predicate IsAsciiAlnum(c: char) {
    'a' <= c <= 'z' || 'A' <= c <= 'Z' || '0' <= c <= '9'
  }

  /** `re.search('[^a-zA-Z0-9]', name)` finds nothing. */
  predicate AllAsciiAlnum(s: string) {
    forall i | 0 <= i < |s| :: IsAsciiAlnum(s[i])
  }

  /** `'.' not in name`. */
  predicate NoDot(s: string) {
    forall i | 0 <= i < |s| :: s[i] != '.'
  }
}
