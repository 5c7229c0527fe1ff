/** Values and string helpers shared by every component of the engraving app:
    JavaScript's `null`/truthiness for strings, `String.prototype.trim`,
    lower-casing for the `.svg` suffix test, and the image MIME allow-list
    that three upload paths share. */
module Common {

  datatype Option<+T> = None | Some(value: T)

  /** A settled promise: resolved with a value or rejected with a message. */
  datatype Result<+T> = Ok(value: T) | Err(message: string)

  /** The JavaScript values that the material records hold. */
  datatype JsValue = Bool(b: bool) | Num(n: real) | Str(s: string)

  /** `if (url)` on a string-or-null: false for `null` and for `''`. */
  predicate Truthy(s: Option<string>)
  {
    s.Some? && s.value != ""
  }

  // ---------------------------------------------------------------------------
  // MIME allow-list

  /** The allow-list checked before any file is accepted (drop on the scene,
      drop or file input on either panel). */
  const AllowedImageTypes: seq<string> := ["image/png", "image/svg+xml", "image/webp"]

  predicate IsAllowedImageType(mimeType: string)
  {
    mimeType in AllowedImageTypes
  }

  /** A file as the handlers see it: its declared type and the object URL that
      `URL.createObjectURL` hands out for it. */
  datatype File = File(mimeType: string, objectUrl: string)

  // ---------------------------------------------------------------------------
  // Object spread

  /** `{ ...base, ...over }` on plain records: every key of either, the value
      from `over` where both have it. Key order is not modelled. */
  function Spread<K, V>(base: map<K, V>, over: map<K, V>): (r: map<K, V>)
    ensures r.Keys == base.Keys + over.Keys
    ensures forall k :: k in over ==> r[k] == over[k]
    ensures forall k :: k in base && k !in over ==> r[k] == base[k]
  {
    base + over
  }

  /** Spreading nothing changes nothing; spreading the same record twice is
      the same as once; spreading one key is a plain update. */
  lemma SpreadLaws<K, V>(base: map<K, V>, over: map<K, V>, key: K, value: V)
    ensures Spread(base, map[]) == base
    ensures Spread(Spread(base, over), over) == Spread(base, over)
    ensures Spread(base, map[key := value]) == base[key := value]
  {
  }

  // ---------------------------------------------------------------------------
  // String.prototype.trim

  /** ECMAScript WhiteSpace and LineTerminator code points, the set `trim()` strips. */
  predicate IsJsWhitespace(c: char)
  {
    || c == '\t' || c == '\n' || c == '\U{000B}' || c == '\U{000C}' || c == '\r'
    || c == ' ' || c == '\U{00A0}' || c == '\U{1680}'
    || ('\U{2000}' <= c <= '\U{200A}')
    || c == '\U{2028}' || c == '\U{2029}' || c == '\U{202F}' || c == '\U{205F}'
    || c == '\U{3000}' || c == '\U{FEFF}'
  }

  predicate AllWhitespace(s: string)
  {
    forall i :: 0 <= i < |s| ==> IsJsWhitespace(s[i])
  }

  /** Drops the leading white space. */
  function TrimStart(s: string): string
  {
    if s == [] || !IsJsWhitespace(s[0]) then s else TrimStart(s[1..])
  }

  /** Drops the trailing white space. */
  function TrimEnd(s: string): string
  {
    if s == [] || !IsJsWhitespace(s[|s| - 1]) then s else TrimEnd(s[..|s| - 1])
  }

  /** `TrimStart` keeps the suffix of `s` that starts at its first non-white
      character. */
  lemma {:induction false} TrimStartIsSuffix(s: string)
    ensures |TrimStart(s)| <= |s| && TrimStart(s) == s[|s| - |TrimStart(s)|..]
    ensures AllWhitespace(s[..|s| - |TrimStart(s)|])
    ensures TrimStart(s) != [] ==> !IsJsWhitespace(TrimStart(s)[0])
    decreases |s|
  {
    if s != [] && IsJsWhitespace(s[0]) {
      var t := s[1..];
      TrimStartIsSuffix(t);
      var r := TrimStart(t);
      assert TrimStart(s) == r;
      var k := |t| - |r|;
      assert t[k..] == s[k + 1..];
      var blank := s[..k + 1];
      assert blank == [s[0]] + t[..k];
    }
  }

  /** `TrimEnd` keeps the prefix of `s` that ends at its last non-white
      character. */
  lemma {:induction false} TrimEndIsPrefix(s: string)
    ensures |TrimEnd(s)| <= |s| && TrimEnd(s) == s[..|TrimEnd(s)|]
    ensures AllWhitespace(s[|TrimEnd(s)|..])
    ensures TrimEnd(s) != [] ==> !IsJsWhitespace(TrimEnd(s)[|TrimEnd(s)| - 1])
    decreases |s|
  {
    if s != [] && IsJsWhitespace(s[|s| - 1]) {
      var t := s[..|s| - 1];
      TrimEndIsPrefix(t);
      var n := |TrimEnd(t)|;
      assert s[..n] == t[..n];
      var blank := s[n..];
      forall i | 0 <= i < |blank| ensures IsJsWhitespace(blank[i]) {
        if i < |t| - n {
          assert blank[i] == t[n..][i];
        }
      }
    }
  }

  function Trim(s: string): string
  {
    TrimEnd(TrimStart(s))
  }

  /** `s.trim()` is falsy exactly when every character of `s` is white space. */
  lemma TrimEmptyIffBlank(s: string)
    ensures Trim(s) == "" <==> AllWhitespace(s)
  {
    var t := TrimStart(s);
    var k := |s| - |t|;
    TrimStartIsSuffix(s);
    TrimEndIsPrefix(t);
    if Trim(s) == "" {
      // t is all white space yet cannot start with any, so it is empty
      assert AllWhitespace(t[0..]);
      assert t == [];
      forall i | 0 <= i < |s| ensures IsJsWhitespace(s[i]) {
        assert s[..k][i] == s[i];
      }
    } else {
      var r := Trim(s);
      assert !IsJsWhitespace(r[0]);
      assert r[0] == t[0] == s[k];
    }
  }

  /** Trimming never invents characters: a non-empty trim keeps every
      character between the first and the last non-white one. */
  lemma TrimIsInfix(s: string)
    ensures exists a, b :: 0 <= a <= b <= |s| && Trim(s) == s[a..b]
  {
    var t := TrimStart(s);
    var a := |s| - |t|;
    var r := TrimEnd(t);
    TrimStartIsSuffix(s);
    TrimEndIsPrefix(t);
    assert 0 <= a <= a + |r| <= |s| && Trim(s) == s[a..a + |r|] by {
      assert t == s[a..];
      assert r == t[..|r|];
      assert t[..|r|] == s[a..a + |r|];
    }
  }

  // ---------------------------------------------------------------------------
  // url.toLowerCase().endsWith('.svg')

  function LowerChar(c: char): (r: char)
    ensures 'A' <= c <= 'Z' ==> r as int == c as int + 32
    ensures !('A' <= c <= 'Z') ==> r == c
  {
    if 'A' <= c <= 'Z' then (c as int + 32) as char else c
  }

  /** `toLowerCase` on ASCII letters, character by character. */
  function ToLowerAscii(s: string): (r: string)
    ensures |r| == |s|
    ensures forall i :: 0 <= i < |s| ==> r[i] == LowerChar(s[i])
  {
    if s == [] then [] else [LowerChar(s[0])] + ToLowerAscii(s[1..])
  }

  predicate EndsWith(s: string, suffix: string)
  {
    |suffix| <= |s| && s[|s| - |suffix|..] == suffix
  }

  /** The dispatch test both engravers apply to a logo URL. */
  predicate IsSvgUrl(url: string)
  {
    EndsWith(ToLowerAscii(url), ".svg")
  }

  /** The test is case-insensitive in the suffix and looks at nothing else:
      any URL followed by ".svg" or ".SVG" passes, whatever precedes it. */
  lemma SvgSuffixCaseInsensitive(prefix: string)
    ensures IsSvgUrl(prefix + ".svg") && IsSvgUrl(prefix + ".SVG") && IsSvgUrl(prefix + ".Svg")
  {
    LowerSuffix(prefix, ".svg");
    LowerSuffix(prefix, ".SVG");
    LowerSuffix(prefix, ".Svg");
    assert ToLowerAscii(".svg") == ".svg";
    assert ToLowerAscii(".SVG") == ".svg";
    assert ToLowerAscii(".Svg") == ".svg";
  }

  /** Lower-casing works character by character, so a suffix is lower-cased on its own. */
  lemma LowerSuffix(prefix: string, suffix: string)
    ensures ToLowerAscii(prefix + suffix)[|prefix|..] == ToLowerAscii(suffix)
  {
    var u := prefix + suffix;
    var l := ToLowerAscii(u);
    forall k | 0 <= k < |suffix| ensures l[|prefix|..][k] == ToLowerAscii(suffix)[k] {
      assert u[|prefix| + k] == suffix[k];
    }
  }

  /** Other extensions fail the test, including ones that merely start with "svg". */
  lemma OtherSuffixesRejected(prefix: string)
    ensures !IsSvgUrl(prefix + ".png") && !IsSvgUrl(prefix + ".svgz")
  {
    var n := |prefix|;
    var png := ToLowerAscii(prefix + ".png");
    assert png[|png| - 4..][1] == 'p' by {
      LowerSuffix(prefix, ".png");
      assert ToLowerAscii(".png") == ".png";
    }
    var svgz := ToLowerAscii(prefix + ".svgz");
    assert svgz[|svgz| - 4..][0] == 's' by {
      LowerSuffix(prefix, ".svgz");
      assert ToLowerAscii(".svgz") == ".svgz";
    }
  }

  /** A URL that passes has a '.' four characters from its end, followed by
      the letters s, v, g in either case. */
  lemma SvgUrlShape(url: string)
    requires IsSvgUrl(url)
    ensures |url| >= 4 && url[|url| - 4] == '.'
    ensures LowerChar(url[|url| - 3]) == 's' && LowerChar(url[|url| - 2]) == 'v' && LowerChar(url[|url| - 1]) == 'g'
  {
    var l := ToLowerAscii(url);
    var n := |url|;
    assert l[n - 4..][0] == '.' && l[n - 4..][1] == 's' && l[n - 4..][2] == 'v' && l[n - 4..][3] == 'g';
  }
}
