/**
  The text logic of the tool detail sheets: how an argument or result key is
  turned into a section title (`formatKey`), how a literal `\n` is unescaped
  for display, how a value is classified (JSON, URL, multi-line, plain) to pick
  its icon and renderer, and which sections a sheet shows, in which order.
  The three copies of `formatKey` (the shared one and the private ones of the
  two section views) are character-for-character the same pipeline and are
  modelled by the one `FormatKey`.
 */
module ToolViews {
  import opened Text

  // ---------------------------------------------------------------------------
  // formatKey
  // ---------------------------------------------------------------------------

  /** `replacingOccurrences(of: "_", with: " ")`. */
  function ReplaceUnderscores(s: string): (r: string)
    ensures |r| == |s| && '_' !in r
    ensures forall i :: 0 <= i < |s| && s[i] != '_' ==> r[i] == s[i]
    ensures forall i :: 0 <= i < |s| && s[i] == '_' ==> r[i] == ' '
  {
    seq(|s|, i requires 0 <= i < |s| => if s[i] == '_' then ' ' else s[i])
  }

  /** Positions where a lower-case letter is immediately followed by an upper-case one. */
  function Boundaries(s: string): nat
  {
    if |s| < 2 then 0
    else (if IsLower(s[0]) && IsUpper(s[1]) then 1 else 0) + Boundaries(s[1..])
  }

  /**
    The regular-expression replacement of `([a-z])([A-Z])` by `$1 $2`.  Matches
    cannot overlap (the second character of a match is upper case, so it never
    starts another), hence one space goes into every boundary.
   */
  function SplitCamel(s: string): (r: string)
    ensures |r| == |s| + Boundaries(s)
    ensures s != [] ==> r != [] && r[0] == s[0]
    ensures forall c :: c in r ==> c in s || c == ' '
    ensures Boundaries(s) == 0 ==> r == s
  {
    if |s| < 2 then s
    else if IsLower(s[0]) && IsUpper(s[1]) then [s[0], ' '] + SplitCamel(s[1..])
    else [s[0]] + SplitCamel(s[1..])
  }

  /** Underscores are neither letter case, so replacing them by spaces leaves the boundaries alone. */
  lemma {:induction false} BoundariesIgnoreUnderscores(s: string)
    ensures Boundaries(ReplaceUnderscores(s)) == Boundaries(s)
  {
    if |s| >= 2 {
      var t := ReplaceUnderscores(s);
      assert t[1..] == ReplaceUnderscores(s[1..]);
      BoundariesIgnoreUnderscores(s[1..]);
    }
  }

  /** A text whose only upper-case letter, if any, is its first character has no boundary. */
  lemma {:induction false} NoBoundaryAfterFirst(s: string)
    requires forall i :: 1 <= i < |s| ==> !IsUpper(s[i])
    ensures Boundaries(s) == 0
  {
    if |s| >= 2 {
      NoBoundaryAfterFirst(s[1..]);
    }
  }

  /** `prefix(1).uppercased() + dropFirst()`. */
  function Capitalized(s: string): (r: string)
    ensures |r| == |s|
    ensures s != [] ==> r[0] == ToUpper(s[0]) && r[1..] == s[1..]
  {
    Uppercased(Prefix(s, 1)) + (if s == [] then [] else s[1..])
  }

  /**
    `formatKey`: underscores become spaces, a space goes between every
    lower-case letter and the upper-case letter right after it, everything is
    lower-cased and then the first character alone is upper-cased.
   */
  function FormatKey(key: string): (r: string)
    ensures |r| == |key| + Boundaries(key)
    ensures r == [] <==> key == []
    ensures '_' !in r
    ensures r != [] ==> !IsLower(r[0])
    ensures forall i :: 1 <= i < |r| ==> !IsUpper(r[i])
  {
    BoundariesIgnoreUnderscores(key);
    var spaced := SplitCamel(ReplaceUnderscores(key));
    assert '_' !in spaced;
    Capitalized(Lowercased(spaced))
  }

  /** Formatting an already formatted key changes nothing. */
  lemma FormatKeyIdempotent(key: string)
    ensures FormatKey(FormatKey(key)) == FormatKey(key)
  {
    var r := FormatKey(key);
    assert ReplaceUnderscores(r) == r;
    NoBoundaryAfterFirst(r);
    var lower := Lowercased(SplitCamel(ReplaceUnderscores(r)));
    if r != [] {
      assert lower[1..] == r[1..];
      assert ToUpper(ToLower(r[0])) == r[0];
    }
  }

  // ---------------------------------------------------------------------------
  // FormattedTextView.formattedText
  // ---------------------------------------------------------------------------

  /** The two-character sequence backslash, `n` occurs somewhere in `s`. */
  predicate HasEscapedNewline(s: string)
  {
    |s| >= 2 && ((s[0] == '\\' && s[1] == 'n') || HasEscapedNewline(s[1..]))
  }

  /** `replacingOccurrences(of: "\\n", with: "\n")`, scanning left to right. */
  function Unescape(s: string): (r: string)
    ensures |r| <= |s|
    ensures r == [] <==> s == []
    ensures s != [] ==> r[0] == (if HasPrefix(s, "\\n") then '\n' else s[0])
    ensures !HasEscapedNewline(r)
    ensures !HasEscapedNewline(s) ==> r == s
  {
    if s == [] then []
    else if HasPrefix(s, "\\n") then
      assert s[0] == '\\' && s[1] == 'n';
      ['\n'] + Unescape(s[2..])
    else
      var rest := Unescape(s[1..]);
      var r := [s[0]] + rest;
      assert r[1..] == rest;
      r
  }

  /** The inverse direction: every newline written as backslash, `n`. */
  function Escape(t: string): (r: string)
    ensures |r| >= |t|
    ensures t != [] ==> r != [] && r[0] == (if t[0] == '\n' then '\\' else t[0])
  {
    if t == [] then []
    else (if t[0] == '\n' then "\\n" else [t[0]]) + Escape(t[1..])
  }

  /**
    Unescaping gives back any text that was escaped, provided the text did not
    already hold a literal backslash-`n` (that one would come back as a newline).
   */
  lemma {:induction false} UnescapeEscape(t: string)
    requires !HasEscapedNewline(t)
    ensures Unescape(Escape(t)) == t
  {
    if t != [] {
      UnescapeEscape(t[1..]);
      var e := Escape(t);
      var rest := Escape(t[1..]);
      if t[0] == '\n' {
        assert e == "\\n" + rest;
        assert HasPrefix(e, "\\n") && e[2..] == rest;
      } else {
        assert e == [t[0]] + rest;
        assert !HasPrefix(e, "\\n") by {
          if |t| >= 2 {
            assert e[1] == rest[0];
          }
        }
        assert e[1..] == rest;
      }
    }
  }

  /** Unescaping twice is unescaping once. */
  lemma UnescapeIdempotent(s: string)
    ensures Unescape(Unescape(s)) == Unescape(s)
  {
  }

  // ---------------------------------------------------------------------------
  // Value classification (the same in the argument and the result sections)
  // ---------------------------------------------------------------------------

  /** `isJsonObject`: after trimming whitespace and newlines the value opens with `{` or `[`. */
  predicate IsJsonObject(value: string)
  {
    HasPrefix(TrimWhitespace(value), "{") || HasPrefix(TrimWhitespace(value), "[")
  }

  /** `isMultiline`: the value holds a line feed. */
  predicate IsMultiline(value: string)
  {
    '\n' in value
  }

  /** `isURL`: the lower-cased, untrimmed value starts with a web scheme. */
  predicate IsUrl(value: string)
  {
    HasPrefix(Lowercased(value), "http://") || HasPrefix(Lowercased(value), "https://")
  }

  datatype ValueIcon = CodeIcon | LinkIcon | MultilineIcon | PlainIcon

  datatype ValueRenderer = JsonRenderer | UrlRenderer | TextRenderer

  /** The section header's icon: JSON before URL before multi-line before plain. */
  function Icon(value: string): (icon: ValueIcon)
    ensures icon == CodeIcon <==> IsJsonObject(value)
    ensures icon == LinkIcon <==> IsUrl(value)
    ensures icon == MultilineIcon <==> !IsJsonObject(value) && !IsUrl(value) && IsMultiline(value)
  {
    UrlIsNeverJson(value);
    if IsJsonObject(value) then CodeIcon
    else if IsUrl(value) then LinkIcon
    else if IsMultiline(value) then MultilineIcon
    else PlainIcon
  }

  /** The section body's renderer: JSON before URL before formatted text. */
  function Renderer(value: string): (renderer: ValueRenderer)
    ensures renderer == JsonRenderer <==> IsJsonObject(value)
    ensures renderer == UrlRenderer <==> IsUrl(value)
  {
    UrlIsNeverJson(value);
    if IsJsonObject(value) then JsonRenderer
    else if IsUrl(value) then UrlRenderer
    else TextRenderer
  }

  /**
    A URL never looks like JSON: its first character is an `h`, which trimming
    keeps and which is neither `{` nor `[`.  So the JSON-before-URL priority
    never decides anything.
   */
  lemma UrlIsNeverJson(value: string)
    ensures IsUrl(value) ==> !IsJsonObject(value)
  {
    if IsUrl(value) {
      assert Lowercased(value)[0] == 'h';
      assert value[0] == 'h' || value[0] == 'H';
      TrimStartKeeps(value, IsWhitespace);
    }
  }

  lemma TrimStartKeeps(s: string, p: char -> bool)
    requires s != [] && !p(s[0])
    ensures Trim(s, p) != [] && Trim(s, p)[0] == s[0]
  {
    assert TrimStart(s, p) == s;
  }

  /** The icon and the renderer always tell the same story. */
  lemma IconMatchesRenderer(value: string)
    ensures Icon(value) == CodeIcon <==> Renderer(value) == JsonRenderer
    ensures Icon(value) == LinkIcon <==> Renderer(value) == UrlRenderer
    ensures Icon(value) in {MultilineIcon, PlainIcon} <==> Renderer(value) == TextRenderer
  {
  }

  // ---------------------------------------------------------------------------
  // Sections, in ascending key order
  // ---------------------------------------------------------------------------

  /** Swift's `<` on strings, approximated by lexicographic order of characters. */
  predicate Below(a: string, b: string)
  {
    b != [] && (a == [] || a[0] < b[0] || (a[0] == b[0] && Below(a[1..], b[1..])))
  }

  lemma {:induction false} BelowIrreflexive(a: string)
    ensures !Below(a, a)
  {
    if a != [] {
      BelowIrreflexive(a[1..]);
    }
  }

  lemma {:induction false} BelowTransitive(a: string, b: string, c: string)
    requires Below(a, b) && Below(b, c)
    ensures Below(a, c)
  {
    if a != [] && a[0] == b[0] && b[0] == c[0] {
      BelowTransitive(a[1..], b[1..], c[1..]);
    }
  }

  lemma {:induction false} BelowTotal(a: string, b: string)
    requires a != b
    ensures Below(a, b) || Below(b, a)
  {
    if a != [] && b != [] && a[0] == b[0] {
      BelowTotal(a[1..], b[1..]);
    }
  }

  /** Every non-empty finite set of strings has a least element. */
  lemma {:induction false} LeastExists(keys: set<string>)
    requires keys != {}
    ensures exists m :: IsLeast(keys, m)
  {
    var x :| x in keys;
    if keys == {x} {
      assert IsLeast(keys, x);
    } else {
      var rest := keys - {x};
      LeastExists(rest);
      var m :| IsLeast(rest, m);
      if Below(m, x) {
        assert IsLeast(keys, m);
      } else {
        BelowTotal(m, x);
        forall k | k in keys && k != x
          ensures Below(x, k)
        {
          if k != m {
            BelowTransitive(x, m, k);
          }
        }
        assert IsLeast(keys, x);
      }
    }
  }

  predicate IsLeast(keys: set<string>, m: string)
  {
    m in keys && forall k :: k in keys && k != m ==> Below(m, k)
  }

  lemma LeastUnique(keys: set<string>)
    ensures forall m, n :: IsLeast(keys, m) && IsLeast(keys, n) ==> m == n
  {
    forall m, n | IsLeast(keys, m) && IsLeast(keys, n)
      ensures m == n
    {
      if m != n {
        BelowTransitive(m, n, m);
        BelowIrreflexive(m);
      }
    }
  }

  /** The least key of a non-empty set. */
  function Least(keys: set<string>): (m: string)
    requires keys != {}
    ensures m in keys && forall k :: k in keys && k != m ==> Below(m, k)
  {
    LeastExists(keys);
    LeastUnique(keys);
    var m :| IsLeast(keys, m);
    m
  }

  /** `keys.sorted()`: every key once, in strictly ascending order. */
  function SortedKeys(keys: set<string>): (r: seq<string>)
    ensures |r| == |keys|
    ensures forall k :: k in r <==> k in keys
    ensures forall i, j :: 0 <= i < j < |r| ==> Below(r[i], r[j])
    decreases keys
  {
    if keys == {} then []
    else
      var m := Least(keys);
      var rest := SortedKeys(keys - {m});
      assert forall j :: 0 <= j < |rest| ==> Below(m, rest[j]) by {
        forall j | 0 <= j < |rest|
          ensures Below(m, rest[j])
        {
          assert rest[j] in keys - {m};
        }
      }
      [m] + rest
  }

  /**
    One expandable section: the entry it shows, headed by the formatted key,
    with the icon and the renderer its value calls for.
   */
  datatype Section = Section(key: string, value: string)
  {
    function Title(): string
    {
      FormatKey(key)
    }

    function HeaderIcon(): ValueIcon
    {
      Icon(value)
    }

    function BodyRenderer(): ValueRenderer
    {
      Renderer(value)
    }
  }

  /** What the sheet shows under its title: sections, or a placeholder when there is nothing. */
  datatype Body = Sections(sections: seq<Section>) | Placeholder(message: string)

  datatype Details = Details(title: string, body: Body)

  /** The sections for `keys`, in the order given. */
  function SectionsFor(keys: seq<string>, values: map<string, string>): (sections: seq<Section>)
    requires forall k :: k in keys ==> k in values
    ensures |sections| == |keys|
    ensures forall i :: 0 <= i < |keys| ==> sections[i] == Section(keys[i], values[keys[i]])
  {
    if keys == [] then [] else [Section(keys[0], values[keys[0]])] + SectionsFor(keys[1..], values)
  }

  /** One section per entry of `values`, in ascending key order. */
  function SectionsOf(values: map<string, string>): (sections: seq<Section>)
    ensures |sections| == |values.Keys|
  {
    SectionsFor(SortedKeys(values.Keys), values)
  }

  /** Each section shows an entry of `values`, and the sections come in strictly ascending key order. */
  lemma SectionsOfOrdered(values: map<string, string>)
    ensures var s := SectionsOf(values);
            (forall i :: 0 <= i < |s| ==> s[i].key in values && s[i].value == values[s[i].key])
            && (forall i, j :: 0 <= i < j < |s| ==> Below(s[i].key, s[j].key))
  {
    var keys := SortedKeys(values.Keys);
    assert forall i :: 0 <= i < |keys| ==> SectionsOf(values)[i].key == keys[i];
  }

  /** Every entry of `values` has a section. */
  lemma SectionsOfCovers(values: map<string, string>, key: string)
    requires key in values
    ensures exists i :: 0 <= i < |SectionsOf(values)| && SectionsOf(values)[i] == Section(key, values[key])
  {
    var keys := SortedKeys(values.Keys);
    var i :| 0 <= i < |keys| && keys[i] == key;
    assert SectionsOf(values)[i] == Section(key, values[key]);
  }

  /** `ToolResultDetailsView`: the unescaped content as title, then the result sections. */
  function ResultDetails(content: string, result: map<string, string>): (d: Details)
    ensures d.title == Unescape(content)
    ensures d.body.Placeholder? <==> result == map[]
    ensures d.body.Placeholder? ==> d.body.message == "No result data available"
    ensures d.body.Sections? ==> d.body.sections == SectionsOf(result)
  {
    Details(Unescape(content),
            if result != map[] then Sections(SectionsOf(result)) else Placeholder("No result data available"))
  }

  /** `ToolCallDetailsView`: `Tool: ` and the tool name as title, then the argument sections. */
  function CallDetails(toolName: string, args: map<string, string>): (d: Details)
    ensures HasPrefix(d.title, "Tool: ") && d.title[6..] == toolName
    ensures d.body.Placeholder? <==> args == map[]
    ensures d.body.Placeholder? ==> d.body.message == "No arguments provided"
    ensures d.body.Sections? ==> d.body.sections == SectionsOf(args)
  {
    Details("Tool: " + toolName,
            if args != map[] then Sections(SectionsOf(args)) else Placeholder("No arguments provided"))
  }

  /** A sheet shows a section for every entry exactly when it has entries at all. */
  lemma NonEmptyMapHasSections(values: map<string, string>)
    requires values != map[]
    ensures |SectionsOf(values)| > 0
  {
    var k :| k in values;
    assert k in values.Keys;
  }
}
