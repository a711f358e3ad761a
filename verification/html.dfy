/**
 * The two text rewrites behind `parseHtmlContent`: the global regular-expression
 * replacement `/<[^>]*>/g -> ''` and the entity replacement `/&mdash;/g`.
 */
module Html {

  /** No '<' is followed, anywhere later, by a '>': the string holds no complete tag. */
  predicate NoTag(s: string) {
    forall i, j :: 0 <= i < j < |s| ==> !(s[i] == '<' && s[j] == '>')
  }

  /** Position of the first occurrence of `c` in `s`. */
  function FirstIndex(s: string, c: char): (i: nat)
    requires c in s
    ensures i < |s| && s[i] == c
    ensures c !in s[..i]
  {
    if s[0] == c then 0 else 1 + FirstIndex(s[1..], c)
  }

  /**
   * `s.replace(/<[^>]*>/g, '')`: scanning left to right, a '<' that has a '>'
   * somewhere after it starts a match that ends at the first such '>' (the class
   * `[^>]` cannot step over one); a '<' with no '>' after it is kept.
   */
  function StripTags(s: string): string
    decreases |s|
  {
    if s == [] then []
    else if s[0] == '<' && '>' in s[1..] then StripTags(s[FirstIndex(s, '>') + 1..])
    else [s[0]] + StripTags(s[1..])
  }

  /** Every character of the output comes from the input, and the output is no longer. */
  lemma {:induction false} StripTagsShrinks(s: string)
    ensures |StripTags(s)| <= |s|
    ensures forall c :: c in StripTags(s) ==> c in s
    decreases |s|
  {
    if s == [] {
    } else if s[0] == '<' && '>' in s[1..] {
      var k := FirstIndex(s, '>') + 1;
      StripTagsShrinks(s[k..]);
      forall c | c in StripTags(s) ensures c in s {
        assert c in s[k..];
      }
    } else {
      StripTagsShrinks(s[1..]);
      forall c | c in StripTags(s) ensures c in s {
        if c != s[0] {
          assert c in StripTags(s[1..]);
          assert c in s[1..];
        }
      }
    }
  }

  lemma NoTagCons(c: char, t: string)
    requires NoTag(t)
    requires c == '<' ==> '>' !in t
    ensures NoTag([c] + t)
  {
    var s := [c] + t;
    forall i, j | 0 <= i < j < |s| ensures !(s[i] == '<' && s[j] == '>') {
      if i == 0 {
        assert s[j] == t[j - 1];
        assert s[j] in t;
      } else {
        assert s[i] == t[i - 1] && s[j] == t[j - 1];
      }
    }
  }

  /** No tag survives the strip. */
  lemma {:induction false} StripTagsNoTag(s: string)
    ensures NoTag(StripTags(s))
    decreases |s|
  {
    if s == [] {
    } else if s[0] == '<' && '>' in s[1..] {
      StripTagsNoTag(s[FirstIndex(s, '>') + 1..]);
    } else {
      StripTagsNoTag(s[1..]);
      StripTagsShrinks(s[1..]);
      NoTagCons(s[0], StripTags(s[1..]));
    }
  }

  lemma NoTagTail(s: string)
    requires s != [] && NoTag(s)
    ensures NoTag(s[1..])
    ensures s[0] == '<' ==> '>' !in s[1..]
  {
    var t := s[1..];
    if s[0] == '<' {
      forall j | 0 <= j < |t| ensures t[j] != '>' {
        assert t[j] == s[j + 1];
      }
    }
    forall i, j | 0 <= i < j < |t| ensures !(t[i] == '<' && t[j] == '>') {
      assert t[i] == s[i + 1] && t[j] == s[j + 1];
    }
  }

  /** The strip changes a string exactly when it holds a tag. */
  lemma {:induction false} StripTagsFixedPoint(s: string)
    ensures StripTags(s) == s <==> NoTag(s)
    decreases |s|
  {
    StripTagsNoTag(s);
    if s != [] && NoTag(s) {
      NoTagTail(s);
      StripTagsFixedPoint(s[1..]);
    }
  }

  /** Stripping twice is stripping once. */
  lemma StripTagsIdempotent(s: string)
    ensures StripTags(StripTags(s)) == StripTags(s)
  {
    StripTagsNoTag(s);
    StripTagsFixedPoint(StripTags(s));
  }

  /** A string without '<' holds no tag, so the strip leaves it alone. */
  lemma StripTagsNoAngle(s: string)
    requires '<' !in s
    ensures StripTags(s) == s
  {
    StripTagsFixedPoint(s);
  }

  /** A string without '>' holds no tag either: an unclosed '<' is kept. */
  lemma StripTagsNoClose(s: string)
    requires '>' !in s
    ensures StripTags(s) == s
  {
    StripTagsFixedPoint(s);
  }

  /** Text before the first '<' is kept as it is, ahead of whatever the rest strips to. */
  lemma {:induction false} StripTagsPlainPrefix(a: string, b: string)
    requires '<' !in a
    ensures StripTags(a + b) == a + StripTags(b)
    decreases |a|
  {
    if a == [] {
      assert a + b == b;
    } else {
      assert (a + b)[0] == a[0] && (a + b)[1..] == a[1..] + b;
      StripTagsPlainPrefix(a[1..], b);
    }
  }

  /** One tag goes, and the text on both sides of it stays. */
  lemma StripTagsRemovesOneTag(a: string, t: string, b: string)
    requires '<' !in a && '>' !in t
    ensures StripTags(a + ['<'] + t + ['>'] + b) == a + StripTags(b)
  {
    var s := ['<'] + t + ['>'] + b;
    assert a + ['<'] + t + ['>'] + b == a + s;
    StripTagsPlainPrefix(a, s);
    assert s[|t| + 1] == '>' && s[1..][|t|] == '>';
    assert s[..|t| + 1] == ['<'] + t;
    assert FirstIndex(s, '>') == |t| + 1;
    assert s[|t| + 2..] == b;
  }

  const Mdash := "&mdash;"

  /** The replacement text exactly as the source file spells it (three characters). */
  const MdashReplacement := "\U{00E2}\U{20AC}\U{201D}"

  /** Whether "&mdash;" occurs in `s`. */
  predicate ContainsMdash(s: string)
    decreases |s|
  {
    |s| >= |Mdash| && (s[..|Mdash|] == Mdash || ContainsMdash(s[1..]))
  }

  /** `s.replace(/&mdash;/g, MdashReplacement)`: non-overlapping, left to right. */
  function ReplaceMdash(s: string): string
    decreases |s|
  {
    if |s| < |Mdash| then s
    else if s[..|Mdash|] == Mdash then MdashReplacement + ReplaceMdash(s[|Mdash|..])
    else [s[0]] + ReplaceMdash(s[1..])
  }

  /**
   * The replacement never lengthens, never brings in an angle bracket, and is the
   * identity on strings that hold no "&mdash;".
   */
  lemma {:induction false} ReplaceMdashFacts(s: string)
    ensures |ReplaceMdash(s)| <= |s|
    ensures '<' in ReplaceMdash(s) ==> '<' in s
    ensures '>' in ReplaceMdash(s) ==> '>' in s
    ensures !ContainsMdash(s) ==> ReplaceMdash(s) == s
    decreases |s|
  {
    if |s| < |Mdash| {
    } else if s[..|Mdash|] == Mdash {
      ReplaceMdashFacts(s[|Mdash|..]);
      var t := s[|Mdash|..];
      if '<' in ReplaceMdash(s) {
        assert '<' in ReplaceMdash(t);
        assert '<' in t;
      }
      if '>' in ReplaceMdash(s) {
        assert '>' in ReplaceMdash(t);
        assert '>' in t;
      }
    } else {
      ReplaceMdashFacts(s[1..]);
      var t := s[1..];
      if '<' in ReplaceMdash(s) && s[0] != '<' {
        assert '<' in ReplaceMdash(t);
        assert '<' in t;
      }
      if '>' in ReplaceMdash(s) && s[0] != '>' {
        assert '>' in ReplaceMdash(t);
        assert '>' in t;
      }
    }
  }

  /** An "&mdash;" after text without '&' is replaced in place, and the text around it is kept. */
  lemma {:induction false} ReplaceMdashSplices(a: string, b: string)
    requires '&' !in a
    ensures ReplaceMdash(a + Mdash + b) == a + MdashReplacement + ReplaceMdash(b)
    decreases |a|
  {
    var s := a + Mdash + b;
    if a == [] {
      assert s == Mdash + b;
      assert s[..|Mdash|] == Mdash && s[|Mdash|..] == b;
    } else {
      assert s[0] == a[0] && s[..|Mdash|][0] == a[0];
      assert s[1..] == a[1..] + Mdash + b;
      ReplaceMdashSplices(a[1..], b);
    }
  }

  /** Characters that neither start an entity nor occur in the replacement. */
  predicate Plain(q: string) {
    forall c :: c in q ==> c != '&' && c !in MdashReplacement
  }

  /** A replaced text that starts with plain characters came from a text that starts with them. */
  lemma {:induction false} ReplaceMdashPlainPrefix(u: string, q: string)
    requires Plain(q)
    requires |ReplaceMdash(u)| >= |q| && ReplaceMdash(u)[..|q|] == q
    ensures |u| >= |q| && u[..|q|] == q
    decreases |q|
  {
    if q != [] && |u| >= |Mdash| {
      var r := ReplaceMdash(u);
      assert r[0] == q[0] && q[0] in q;
      if u[..|Mdash|] == Mdash {
        assert false;
      } else {
        assert r[1..][..|q| - 1] == q[1..];
        assert forall c :: c in q[1..] ==> c in q;
        ReplaceMdashPlainPrefix(u[1..], q[1..]);
        assert u[..|q|] == [u[0]] + u[1..][..|q| - 1];
      }
    }
  }

  /** The replacement text cannot be the start of an entity. */
  lemma ContainsMdashAfterReplacement(t: string)
    ensures ContainsMdash(MdashReplacement + t) ==> ContainsMdash(t)
  {
    var s0 := MdashReplacement + t;
    var s1, s2 := s0[1..], s0[2..];
    assert s0[3..] == t && s1[1..] == s2 && s2[1..] == t;
    if ContainsMdash(s0) {
      assert s0[..|Mdash|][0] == s0[0] != '&';
      assert ContainsMdash(s1);
      assert s1[..|Mdash|][0] == s0[1] != '&';
      assert ContainsMdash(s2);
      assert s2[..|Mdash|][0] == s0[2] != '&';
    }
  }

  /** No "&mdash;" is left after the replacement. */
  lemma {:induction false} ReplaceMdashRemovesAll(s: string)
    ensures !ContainsMdash(ReplaceMdash(s))
    decreases |s|
  {
    if |s| < |Mdash| {
    } else if s[..|Mdash|] == Mdash {
      ReplaceMdashRemovesAll(s[|Mdash|..]);
      ContainsMdashAfterReplacement(ReplaceMdash(s[|Mdash|..]));
    } else {
      ReplaceMdashRemovesAll(s[1..]);
      var r := ReplaceMdash(s);
      assert r[1..] == ReplaceMdash(s[1..]);
      if |r| >= |Mdash| && r[..|Mdash|] == Mdash {
        var q := Mdash[1..];
        assert ReplaceMdash(s[1..])[..|q|] == q;
        ReplaceMdashPlainPrefix(s[1..], q);
        assert false;
      }
    }
  }

  lemma NoTagSuffix(s: string, k: nat)
    requires k <= |s| && NoTag(s)
    ensures NoTag(s[k..])
  {
    var t := s[k..];
    forall i, j | 0 <= i < j < |t| ensures !(t[i] == '<' && t[j] == '>') {
      assert t[i] == s[i + k] && t[j] == s[j + k];
    }
  }

  lemma NoTagReplacementPrefix(t: string)
    requires NoTag(t)
    ensures NoTag(MdashReplacement + t)
  {
    var s := MdashReplacement + t;
    forall i, j | 0 <= i < j < |s| ensures !(s[i] == '<' && s[j] == '>') {
      if i >= 3 {
        assert s[i] == t[i - 3] && s[j] == t[j - 3];
      }
    }
  }

  /** The entity replacement cannot create a tag. */
  lemma {:induction false} ReplaceMdashKeepsNoTag(s: string)
    requires NoTag(s)
    ensures NoTag(ReplaceMdash(s))
    decreases |s|
  {
    if |s| < |Mdash| {
    } else if s[..|Mdash|] == Mdash {
      NoTagSuffix(s, |Mdash|);
      ReplaceMdashKeepsNoTag(s[|Mdash|..]);
      NoTagReplacementPrefix(ReplaceMdash(s[|Mdash|..]));
    } else {
      NoTagTail(s);
      ReplaceMdashKeepsNoTag(s[1..]);
      ReplaceMdashFacts(s[1..]);
      NoTagCons(s[0], ReplaceMdash(s[1..]));
    }
  }
}
