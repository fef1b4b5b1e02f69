/**
 * The text transformations of the detail view: the slug of `generateBranchName`
 * and the tag rewriting of `renderMarkdown` and of the description stripping
 * (`replace(/<[^>]*>/g, …)`).
 */
module DetailText {
  import opened Wrappers
  import opened JsText
  import opened Seqs

  // ---------------------------------------------------------------------
  // Branch name
  // ---------------------------------------------------------------------

  /** The characters a slug is made of: `[a-z0-9-]`. */
  predicate IsSlugChar(c: char)
  {
    ('a' <= c <= 'z') || ('0' <= c <= '9') || c == '-'
  }

  /**
   * `normalize('NFD')` followed by the removal of U+0300–U+036F, for the
   * lower-case Latin-1 letters that decompose: the base letter remains.
   */
  function BaseLetter(c: char): (r: char)
    ensures (c as int) < 0x80 ==> r == c
  {
    var n := c as int;
    if 0xE0 <= n <= 0xE5 then 'a'
    else if n == 0xE7 then 'c'
    else if 0xE8 <= n <= 0xEB then 'e'
    else if 0xEC <= n <= 0xEF then 'i'
    else if n == 0xF1 then 'n'
    else if 0xF2 <= n <= 0xF6 then 'o'
    else if 0xF9 <= n <= 0xFC then 'u'
    else if n == 0xFD || n == 0xFF then 'y'
    else c
  }

  function Unaccent(s: string): (r: string)
    ensures |r| == |s| && forall i :: 0 <= i < |s| ==> r[i] == BaseLetter(s[i])
  {
    seq(|s|, i requires 0 <= i < |s| => BaseLetter(s[i]))
  }

  /** `replace(/[^a-z0-9\s-]/g, '')`. */
  function KeepAllowed(s: string): (r: string)
    ensures forall i :: 0 <= i < |r| ==> IsSlugChar(r[i]) || IsJsWhitespace(r[i])
  {
    var keep := (c: char) => IsSlugChar(c) || IsJsWhitespace(c);
    var r := Filter(s, keep);
    assert forall i :: 0 <= i < |r| ==> r[i] in r;
    r
  }

  /** `replace(/\s+/g, '-')`; `inRun` says the character before `s` was whitespace. */
  function HyphenateRuns(s: string, inRun: bool): (r: string)
    ensures forall i :: 0 <= i < |r| ==> r[i] == '-' || r[i] in s
    ensures forall i :: 0 <= i < |r| ==> !IsJsWhitespace(r[i])
  {
    if s == [] then []
    else if IsJsWhitespace(s[0]) then (if inRun then [] else "-") + HyphenateRuns(s[1..], true)
    else [s[0]] + HyphenateRuns(s[1..], false)
  }

  /** `replace(/-+/g, '-')`; `afterHyphen` says the character before `s` was a hyphen. */
  function CollapseHyphens(s: string, afterHyphen: bool): (r: string)
    ensures forall i :: 0 <= i < |r| ==> r[i] in s
    ensures afterHyphen && r != [] ==> r[0] != '-'
    ensures forall i :: 0 <= i < |r| - 1 ==> !(r[i] == '-' && r[i + 1] == '-')
  {
    if s == [] then []
    else if s[0] == '-' then (if afterHyphen then [] else "-") + CollapseHyphens(s[1..], true)
    else [s[0]] + CollapseHyphens(s[1..], false)
  }

  /** The slug before its hyphen runs are collapsed: allowed characters, trimmed, whitespace runs hyphenated. */
  function Hyphenated(title: string): (r: string)
    ensures forall i :: 0 <= i < |r| ==> IsSlugChar(r[i])
  {
    var kept := KeepAllowed(Unaccent(ToLower(title)));
    var trimmed := Trim(kept);
    TrimKeepsCharacters(kept);
    HyphenateRuns(trimmed, false)
  }

  /** Every character of a trimmed text comes from the text. */
  lemma TrimKeepsCharacters(s: string)
    ensures forall i :: 0 <= i < |Trim(s)| ==> Trim(s)[i] in s
  {
    var t := TrimStart(s);
    var r := TrimEnd(t);
    assert Trim(s) == r;
    forall i | 0 <= i < |r| ensures r[i] in s {
      assert r[i] == t[i] == s[|s| - |t| + i];
    }
  }

  /** The slug of `generateBranchName`. */
  function Slug(title: string): (slug: string)
    ensures forall i :: 0 <= i < |slug| ==> IsSlugChar(slug[i])
    ensures forall i :: 0 <= i < |slug| - 1 ==> !(slug[i] == '-' && slug[i + 1] == '-')
  {
    var h := Hyphenated(title);
    var slug := CollapseHyphens(h, false);
    assert forall i :: 0 <= i < |slug| ==> slug[i] in h;
    slug
  }

  /** The name copied to the clipboard: `feature/<id>-<slug>`. */
  function BranchName(id: int, title: string): (name: string)
    ensures StartsWith(name, "feature/")
  {
    "feature/" + IntToString(id) + "-" + Slug(title)
  }

  /** Text without whitespace is its own trim. */
  lemma TrimWithoutWhitespace(s: string)
    requires forall i :: 0 <= i < |s| ==> !IsJsWhitespace(s[i])
    ensures Trim(s) == s
  {
    assert TrimStart(s) == s;
  }

  lemma {:induction false} HyphenateWithoutWhitespace(s: string)
    requires forall i :: 0 <= i < |s| ==> !IsJsWhitespace(s[i])
    ensures HyphenateRuns(s, false) == s
  {
    if s != [] {
      HyphenateWithoutWhitespace(s[1..]);
    }
  }

  lemma {:induction false} CollapseWithoutDoubleHyphen(s: string, afterHyphen: bool)
    requires forall i :: 0 <= i < |s| - 1 ==> !(s[i] == '-' && s[i + 1] == '-')
    requires afterHyphen ==> s == [] || s[0] != '-'
    ensures CollapseHyphens(s, afterHyphen) == s
  {
    if s != [] {
      var t := s[1..];
      assert forall i :: 0 <= i < |t| ==> t[i] == s[i + 1];
      assert s[0] == '-' && t != [] ==> t[0] == s[1];
      CollapseWithoutDoubleHyphen(t, s[0] == '-');
    }
  }

  /** Slug characters pass the first steps of the pipeline unchanged. */
  lemma HyphenatedOfSlugChars(s: string)
    requires forall i :: 0 <= i < |s| ==> IsSlugChar(s[i])
    ensures Hyphenated(s) == s
  {
    ToLowerNoUpper(s);
    assert Unaccent(s) == s;
    FilterAll(s, (c: char) => IsSlugChar(c) || IsJsWhitespace(c));
    TrimWithoutWhitespace(s);
    HyphenateWithoutWhitespace(s);
  }

  /** Text that already looks like a slug is its own slug. */
  lemma SlugOfSlugText(s: string)
    requires forall i :: 0 <= i < |s| ==> IsSlugChar(s[i])
    requires forall i :: 0 <= i < |s| - 1 ==> !(s[i] == '-' && s[i + 1] == '-')
    ensures Slug(s) == s
  {
    HyphenatedOfSlugChars(s);
    CollapseWithoutDoubleHyphen(s, false);
  }

  /** A slug is its own slug: every step of the pipeline leaves it unchanged. */
  lemma SlugOfSlug(title: string)
    ensures Slug(Slug(title)) == Slug(title)
  {
    SlugOfSlugText(Slug(title));
  }

  // ---------------------------------------------------------------------
  // Tags
  // ---------------------------------------------------------------------

  /**
   * `s.replace(/<[^>]*>/g, f)`: every `<` that has a `>` after it starts a tag
   * running to the first such `>`, and the tag is replaced by `f(tag)`; a `<`
   * without a later `>` is kept, and so is everything after it.
   */
  function ReplaceTags(s: string, f: string -> string): (r: string)
    decreases |s|
  {
    if s == [] then []
    else if s[0] == '<' then
      match IndexOf(s[1..], '>')
      case Some(j) => f(s[..j + 2]) + ReplaceTags(s[j + 2..], f)
      case None => s
    else [s[0]] + ReplaceTags(s[1..], f)
  }

  /** No `>` follows a `<`: the text holds no `<…>` span. */
  predicate TagFree(s: string)
  {
    forall i, j :: 0 <= i < j < |s| && s[i] == '<' ==> s[j] != '>'
  }

  /** A replacement that introduces no angle bracket. */
  ghost predicate NoBrackets(f: string -> string)
  {
    forall tag :: '<' !in f(tag) && '>' !in f(tag)
  }

  /** A tag-free text stays tag-free behind a text without `<`. */
  lemma TagFreeAfter(head: string, tail: string)
    requires '<' !in head && TagFree(tail)
    ensures TagFree(head + tail)
  {
    var r := head + tail;
    forall i | 0 <= i < |head| ensures r[i] != '<' {
      assert r[i] == head[i] && head[i] in head;
    }
    forall i, k | 0 <= i < k < |r| && r[i] == '<' ensures r[k] != '>' {
      assert tail[i - |head|] == '<' && tail[k - |head|] == r[k];
    }
  }

  /** After the rewrite no tag is left, whatever the replacements, as long as they bring no brackets of their own. */
  lemma {:induction false} ReplaceTagsLeavesNoTag(s: string, f: string -> string)
    requires NoBrackets(f)
    ensures TagFree(ReplaceTags(s, f))
    decreases |s|
  {
    if s == [] {
    } else if s[0] == '<' {
      match IndexOf(s[1..], '>')
      case Some(j) =>
        ReplaceTagsLeavesNoTag(s[j + 2..], f);
        TagFreeAfter(f(s[..j + 2]), ReplaceTags(s[j + 2..], f));
      case None =>
        forall i, k | 0 <= i < k < |s| && s[i] == '<' ensures s[k] != '>' {
          assert s[k] == s[1..][k - 1];
        }
    } else {
      ReplaceTagsLeavesNoTag(s[1..], f);
      TagFreeAfter([s[0]], ReplaceTags(s[1..], f));
    }
  }

  /** Text without a tag is left as it is. */
  lemma {:induction false} ReplaceTagsOfTagFree(s: string, f: string -> string)
    requires TagFree(s)
    ensures ReplaceTags(s, f) == s
    decreases |s|
  {
    if s != [] {
      if s[0] == '<' {
        assert IndexOf(s[1..], '>').None? by {
          forall k | 0 <= k < |s[1..]| ensures s[1..][k] != '>' {
            assert s[1..][k] == s[k + 1];
          }
        }
      } else {
        assert TagFree(s[1..]) by {
          forall i, k | 0 <= i < k < |s[1..]| && s[1..][i] == '<' ensures s[1..][k] != '>' {
            assert s[1..][i] == s[i + 1] && s[1..][k] == s[k + 1];
          }
        }
        ReplaceTagsOfTagFree(s[1..], f);
      }
    }
  }

  /** `replace(/<[^>]*>/g, '')`. */
  function StripTags(s: string): (r: string)
    ensures TagFree(r)
  {
    ReplaceTagsLeavesNoTag(s, _ => "");
    ReplaceTags(s, _ => "")
  }

  /** Stripping twice is stripping once. */
  lemma StripTagsIdempotent(s: string)
    ensures StripTags(StripTags(s)) == StripTags(s)
  {
    ReplaceTagsOfTagFree(StripTags(s), _ => "");
  }

  /** The replacement `renderMarkdown` uses for a tag. */
  function MarkdownTag(tag: string): (r: string)
    ensures r in {"\n", "\n- ", ""}
    ensures StartsWith(tag, "<br") || StartsWith(tag, "</p") ==> r == "\n"
    ensures !StartsWith(tag, "<br") && !StartsWith(tag, "</p") && StartsWith(tag, "<li") ==> r == "\n- "
    ensures !StartsWith(tag, "<br") && !StartsWith(tag, "</p") && !StartsWith(tag, "<li") ==> r == ""
  {
    if StartsWith(tag, "<br") then "\n"
    else if StartsWith(tag, "</p") then "\n"
    else if StartsWith(tag, "<li") then "\n- "
    else ""
  }

  /**
   * The text `renderMarkdown` hands to the Markdown parser: nothing for an
   * empty description, otherwise the description with its tags rewritten.
   */
  function MarkdownSource(content: string): (r: string)
    ensures content == "" ==> r == ""
    ensures TagFree(r)
  {
    if content == "" then ""
    else
      assert NoBrackets(MarkdownTag) by {
        forall tag ensures '<' !in MarkdownTag(tag) && '>' !in MarkdownTag(tag) {
        }
      }
      ReplaceTagsLeavesNoTag(content, MarkdownTag);
      ReplaceTags(content, MarkdownTag)
  }

  /** `t` is one whole tag: it opens with `<`, closes with `>` and holds no other `>`. */
  predicate IsTag(t: string)
  {
    |t| >= 2 && t[0] == '<' && t[|t| - 1] == '>' && '>' !in t[1..|t| - 1]
  }

  /** Text without `<` in front of the rest passes through the rewrite unchanged. */
  lemma {:induction false} ReplaceTagsAfterPlain(a: string, s: string, f: string -> string)
    requires '<' !in a
    ensures ReplaceTags(a + s, f) == a + ReplaceTags(s, f)
    decreases |a|
  {
    if a != [] {
      var u := a + s;
      assert u[0] == a[0] && u[1..] == a[1..] + s;
      assert a[0] in a;
      assert ReplaceTags(u, f) == [a[0]] + ReplaceTags(a[1..] + s, f);
      ReplaceTagsAfterPlain(a[1..], s, f);
      assert [a[0]] + (a[1..] + ReplaceTags(s, f)) == a + ReplaceTags(s, f);
    } else {
      assert a + s == s && a + ReplaceTags(s, f) == ReplaceTags(s, f);
    }
  }

  /** A whole tag at the front is replaced and the rest rewritten after it. */
  lemma ReplaceTagsOfLeadingTag(t: string, b: string, f: string -> string)
    requires IsTag(t)
    ensures ReplaceTags(t + b, f) == f(t) + ReplaceTags(b, f)
  {
    var u := t + b;
    var k := |t| - 2;
    assert u[1..][k] == '>';
    assert u[1..][..k] == t[1..|t| - 1];
    var r := IndexOf(u[1..], '>');
    assert r == Some(k) by {
      assert r.Some? && r.value <= k by {
        assert u[1..][k] in u[1..][..k + 1];
      }
      assert r.value >= k by {
        assert forall i :: 0 <= i < k ==> u[1..][i] == u[1..][..k][i] && u[1..][..k][i] in u[1..][..k];
      }
    }
    assert u[..k + 2] == t && u[k + 2..] == b;
  }

  /** One tag between two tag-free texts: only the tag is rewritten. */
  lemma MarkdownSourceOfOneTag(a: string, t: string, b: string)
    requires '<' !in a && IsTag(t) && TagFree(b)
    ensures MarkdownSource(a + t + b) == a + MarkdownTag(t) + b
  {
    assert a + t + b == a + (t + b);
    ReplaceTagsAfterPlain(a, t + b, MarkdownTag);
    ReplaceTagsOfLeadingTag(t, b, MarkdownTag);
    ReplaceTagsOfTagFree(b, MarkdownTag);
  }

  /** A line break becomes a newline and the text around it stays. */
  lemma MarkdownSourceExample()
    ensures MarkdownSource("a<br>b") == "a\nb"
  {
    var t := "<br>b";
    BreakThenLetter();
    var u := "a" + t;
    assert u[0] == 'a' && u[1..] == t;
    assert ReplaceTags(u, MarkdownTag) == "a\nb";
    assert u == "a<br>b";
  }

  /** The tag at the front is rewritten and the letter after it kept. */
  lemma BreakThenLetter()
    ensures ReplaceTags("<br>b", MarkdownTag) == "\nb"
  {
    var tag := "<br>";
    assert IndexOf(tag[1..], '>') == Some(2) by {
      assert tag[1..] == "br>";
    }
    assert MarkdownTag(tag) == "\n" by {
      assert StartsWith(tag, "<br");
    }
    assert ReplaceTags("b", MarkdownTag) == "b";
    var t := tag + "b";
    assert t[1..] == tag[1..] + "b" && t[..4] == tag && t[4..] == "b";
    assert ReplaceTags(t, MarkdownTag) == "\nb";
    assert t == "<br>b";
  }
}
