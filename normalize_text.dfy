/**
 * The content transform of the repository's text-normalisation script:
 * twelve invisible direction and marker characters are removed, NBSP
 * becomes a space, and line endings become LF. The file is rewritten only
 * when the content changed.
 */
module NormalizeTextFiles {
  import opened Text

  /** `HIDDEN_CHARS`: the embedding, override and isolate controls, the two direction marks and the BOM. */
  const HIDDEN_CHARS: seq<char> := [
    '\U{202A}', '\U{202B}', '\U{202C}', '\U{202D}', '\U{202E}',
    '\U{2066}', '\U{2067}', '\U{2068}', '\U{2069}',
    '\U{200E}', '\U{200F}', '\U{FEFF}']

  const NBSP: char := '\U{00A0}'

  /** What the transform leaves: the hidden characters dropped, NBSP as space, LF line endings. */
  function Normalized(s: string): string {
    ToLf(MapChar(WithoutChars(s, HIDDEN_CHARS), NBSP, ' '))
  }

  /** Text that needs no normalising: no hidden character, no NBSP, no CR. */
  predicate Clean(s: string) {
    Free(s, HIDDEN_CHARS) && Free(s, [NBSP]) && Free(s, ['\r'])
  }

  /**
   * `normalize_file`'s transform on the decoded content, and its answer:
   * whether the content changed (and so was written back).
   */
  method NormalizeContent(content: string) returns (result: string, modified: bool)
    ensures result == Normalized(content)
    ensures modified <==> result != content
  {
    var c := content;
    for i := 0 to |HIDDEN_CHARS|
      invariant c == ReplaceEach(content, HIDDEN_CHARS[..i])
    {
      assert HIDDEN_CHARS[..i + 1][..i] == HIDDEN_CHARS[..i];
      c := Replace(c, [HIDDEN_CHARS[i]], "");
    }
    assert HIDDEN_CHARS[..|HIDDEN_CHARS|] == HIDDEN_CHARS;
    ReplaceEachIsWithout(content, HIDDEN_CHARS);
    var dropped := c;
    c := Replace(c, [NBSP], " ");
    ReplaceIsMapChar(dropped, NBSP, ' ');
    var spaced := c;
    c := Replace(c, "\r\n", "\n");
    c := Replace(c, "\r", "\n");
    LineEndingsAreToLf(spaced);
    result := c;
    modified := result != content;
  }

  /** The result has no hidden character, no NBSP and no CR. */
  lemma NormalizedIsClean(s: string)
    ensures Clean(Normalized(s))
  {
    var w := WithoutChars(s, HIDDEN_CHARS);
    WithoutFree(s, HIDDEN_CHARS, []);
    var m := MapChar(w, NBSP, ' ');
    MapCharFree(w, NBSP, ' ', HIDDEN_CHARS);
    ToLfFree(m, HIDDEN_CHARS);
    ToLfFree(m, [NBSP]);
  }

  /** Clean text is left exactly as it is, so such a file is reported unmodified. */
  lemma CleanUnchanged(s: string)
    requires Clean(s)
    ensures Normalized(s) == s
  {
    WithoutAbsent(s, HIDDEN_CHARS);
    MapCharAbsent(s, NBSP, ' ');
    ToLfAbsent(s);
  }

  /** Normalising twice is normalising once: a second run reports nothing modified. */
  lemma NormalizedIdempotent(s: string)
    ensures Normalized(Normalized(s)) == Normalized(s)
  {
    NormalizedIsClean(s);
    CleanUnchanged(Normalized(s));
  }

  /** With no hidden character and no CR, every character stays in its place and NBSP becomes a space. */
  lemma OtherCharactersKept(s: string)
    requires Free(s, HIDDEN_CHARS) && Free(s, ['\r'])
    ensures |Normalized(s)| == |s|
    ensures forall i :: 0 <= i < |s| ==> Normalized(s)[i] == (if s[i] == NBSP then ' ' else s[i])
  {
    WithoutAbsent(s, HIDDEN_CHARS);
    MapCharFree(s, NBSP, ' ', ['\r']);
    ToLfAbsent(MapChar(s, NBSP, ' '));
  }

  /** Dropping the hidden characters from CR, hidden, LF leaves the bare CR LF pair. */
  lemma DropHiddenBetween(pre: string, h: char, post: string)
    requires Free(pre, HIDDEN_CHARS) && Free(post, HIDDEN_CHARS) && h in HIDDEN_CHARS
    ensures WithoutChars(pre + "\r" + [h] + "\n" + post, HIDDEN_CHARS) == pre + "\r\n" + post
  {
    var x := pre + "\r";
    var z := "\n" + post;
    assert '\r' !in HIDDEN_CHARS && '\n' !in HIDDEN_CHARS;
    FreeConcat(pre, "\r", HIDDEN_CHARS);
    FreeConcat("\n", post, HIDDEN_CHARS);
    DropBetween(x, h, z, HIDDEN_CHARS);
    assert x + [h] + z == pre + "\r" + [h] + "\n" + post;
    assert x + z == pre + "\r\n" + post;
  }

  /** Hidden characters between a CR and an LF are dropped first, so the pair still becomes one LF. */
  lemma HiddenInsideCrLf(pre: string, h: char, post: string)
    requires Clean(pre) && Clean(post) && h in HIDDEN_CHARS
    ensures Normalized(pre + "\r" + [h] + "\n" + post) == pre + "\n" + post
  {
    DropHiddenBetween(pre, h, post);
    var w := pre + "\r\n" + post;
    FreeConcat(pre, "\r\n", [NBSP]);
    FreeConcat(pre + "\r\n", post, [NBSP]);
    MapCharAbsent(w, NBSP, ' ');
    CrLfBetweenPlain(pre, post);
  }
}

/**
 * The one-off clean-up script's per-file transform: line endings become
 * LF, the BOM is removed and NBSP becomes a space, in that order.
 */
module FixPr6Files {
  import opened Text

  const BOM: char := '\U{FEFF}'
  const NBSP: char := '\U{00A0}'

  /** LF line endings, then no BOM, then NBSP as space. */
  function Fixed(s: string): string {
    MapChar(WithoutChars(ToLf(s), [BOM]), NBSP, ' ')
  }

  predicate Clean(s: string) {
    Free(s, ['\r']) && Free(s, [BOM]) && Free(s, [NBSP])
  }

  /** The transform applied to one file's text, replacement after replacement. */
  method FixText(text: string) returns (result: string)
    ensures result == Fixed(text)
  {
    var t := text;
    t := Replace(t, "\r\n", "\n");
    t := Replace(t, "\r", "\n");
    LineEndingsAreToLf(text);
    var lf := t;
    t := Replace(t, [BOM], "");
    assert ReplaceEach(lf, [BOM]) == t by {
      assert [BOM][..0] == [];
    }
    ReplaceEachIsWithout(lf, [BOM]);
    var noBom := t;
    t := Replace(t, [NBSP], " ");
    ReplaceIsMapChar(noBom, NBSP, ' ');
    result := t;
  }

  /** The result has no CR, no BOM and no NBSP. */
  lemma FixedIsClean(s: string)
    ensures Clean(Fixed(s))
  {
    var l := ToLf(s);
    ToLfFree(s, []);
    var w := WithoutChars(l, [BOM]);
    WithoutFree(l, [BOM], ['\r']);
    MapCharFree(w, NBSP, ' ', ['\r']);
    MapCharFree(w, NBSP, ' ', [BOM]);
  }

  /** Clean text is left exactly as it is. */
  lemma CleanUnchanged(s: string)
    requires Clean(s)
    ensures Fixed(s) == s
  {
    ToLfAbsent(s);
    WithoutAbsent(s, [BOM]);
    MapCharAbsent(s, NBSP, ' ');
  }

  /** Running the script twice changes nothing the second time. */
  lemma FixedIdempotent(s: string)
    ensures Fixed(Fixed(s)) == Fixed(s)
  {
    FixedIsClean(s);
    CleanUnchanged(Fixed(s));
  }

  /** With no CR and no BOM, every character stays in its place and NBSP becomes a space. */
  lemma OtherCharactersKept(s: string)
    requires Free(s, ['\r']) && Free(s, [BOM])
    ensures |Fixed(s)| == |s|
    ensures forall i :: 0 <= i < |s| ==> Fixed(s)[i] == (if s[i] == NBSP then ' ' else s[i])
  {
    ToLfAbsent(s);
    WithoutAbsent(s, [BOM]);
  }

  /** With LF line endings first, CR, BOM, LF becomes LF, BOM, LF. */
  lemma LineEndingsAroundBom(pre: string, post: string)
    requires Free(pre, ['\r']) && Free(post, ['\r'])
    ensures ToLf(pre + "\r" + [BOM] + "\n" + post) == pre + "\n" + [BOM] + "\n" + post
  {
    var tail := [BOM] + "\n" + post;
    FreeConcat([BOM] + "\n", post, ['\r']);
    LoneCrBetweenPlain(pre, tail);
    assert pre + "\r" + tail == pre + "\r" + [BOM] + "\n" + post;
    assert pre + "\n" + tail == pre + "\n" + [BOM] + "\n" + post;
  }

  /** Dropping the BOM from LF, BOM, LF leaves two LFs. */
  lemma DropBomBetween(pre: string, post: string)
    requires Free(pre, [BOM]) && Free(post, [BOM])
    ensures WithoutChars(pre + "\n" + [BOM] + "\n" + post, [BOM]) == pre + "\n\n" + post
  {
    var x := pre + "\n";
    var z := "\n" + post;
    FreeConcat(pre, "\n", [BOM]);
    FreeConcat("\n", post, [BOM]);
    DropBetween(x, BOM, z, [BOM]);
    assert x + [BOM] + z == pre + "\n" + [BOM] + "\n" + post;
    assert x + z == pre + "\n\n" + post;
  }

  /** Here line endings come first: a BOM between CR and LF leaves two line breaks. */
  lemma BomInsideCrLf(pre: string, post: string)
    requires Clean(pre) && Clean(post)
    ensures Fixed(pre + "\r" + [BOM] + "\n" + post) == pre + "\n\n" + post
  {
    LineEndingsAroundBom(pre, post);
    DropBomBetween(pre, post);
    var w := pre + "\n\n" + post;
    FreeConcat(pre, "\n\n", [NBSP]);
    FreeConcat(pre + "\n\n", post, [NBSP]);
    MapCharAbsent(w, NBSP, ' ');
  }
}
