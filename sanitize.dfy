/**
 * The input sanitiser and the location validator of the utility module. The sanitiser escapes
 * the five HTML-special characters one `replace` at a time and trims the result.
 */
module Sanitize {

  import opened Text
  import opened Js

  /** The five entities. */
  const Amp: string := "&amp;"
  const Lt: string := "&lt;"
  const Gt: string := "&gt;"
  const Quot: string := "&quot;"
  const Apos: string := "&#039;"

  /**
   * The replacement chain as written: `<` and `>` are replaced before `&`, so the `&` of the
   * entities they produce is escaped a second time.
   */
  function EscapeAsWritten(s: string): string
  {
    ReplaceAll(ReplaceAll(ReplaceAll(ReplaceAll(ReplaceAll(s, '<', Lt), '>', Gt), '&', Amp), '"', Quot), '\'', Apos)
  }

  /** `sanitizeInput(input)`: `''` for a falsy input, otherwise `String(input)` escaped and trimmed. */
  function SanitizeInput(input: Value): (r: string)
    ensures !Truthy(input) ==> r == ""
    ensures r == [] || (!IsSpace(r[0]) && !IsSpace(r[|r| - 1]))
    ensures Lacks(r, '<') && Lacks(r, '>') && Lacks(r, '"') && Lacks(r, '\'')
  {
    if !Truthy(input) then ""
    else
      var escaped := EscapeAsWritten(Show(input));
      EscapedLacksSpecials(Show(input));
      TrimKeepsLacking(escaped, '<');
      TrimKeepsLacking(escaped, '>');
      TrimKeepsLacking(escaped, '"');
      TrimKeepsLacking(escaped, '\'');
      Trim(escaped)
  }

  /** None of `<`, `>`, `"` and `'` survives the replacement chain. */
  lemma EscapedLacksSpecials(s: string)
    ensures var e := EscapeAsWritten(s);
      Lacks(e, '<') && Lacks(e, '>') && Lacks(e, '"') && Lacks(e, '\'')
  {
    var s3 := ReplaceAll(ReplaceAll(ReplaceAll(s, '<', Lt), '>', Gt), '&', Amp);
    AngleBracketsEscaped(s);
    var s4 := ReplaceAll(s3, '"', Quot);
    ReplaceAllRemoves(s3, '"', Quot);
    ReplaceAllKeepsLacking(s3, '"', Quot, '<');
    ReplaceAllKeepsLacking(s3, '"', Quot, '>');
    ReplaceAllRemoves(s4, '\'', Apos);
    ReplaceAllKeepsLacking(s4, '\'', Apos, '<');
    ReplaceAllKeepsLacking(s4, '\'', Apos, '>');
    ReplaceAllKeepsLacking(s4, '\'', Apos, '"');
  }

  /** After the first three replacements neither `<` nor `>` is left. */
  lemma AngleBracketsEscaped(s: string)
    ensures var s3 := ReplaceAll(ReplaceAll(ReplaceAll(s, '<', Lt), '>', Gt), '&', Amp);
      Lacks(s3, '<') && Lacks(s3, '>')
  {
    var s1 := ReplaceAll(s, '<', Lt);
    ReplaceAllRemoves(s, '<', Lt);
    var s2 := ReplaceAll(s1, '>', Gt);
    ReplaceAllRemoves(s1, '>', Gt);
    ReplaceAllKeepsLacking(s1, '>', Gt, '<');
    ReplaceAllKeepsLacking(s2, '&', Amp, '<');
    ReplaceAllKeepsLacking(s2, '&', Amp, '>');
  }

  /** Trimming only removes characters. */
  lemma TrimKeepsLacking(s: string, c: char)
    requires Lacks(s, c)
    ensures Lacks(Trim(s), c)
  {
    var t := TrimStart(s);
    assert t == s[|s| - |t|..];
    assert Lacks(t, c);
    assert Trim(s) == TrimEnd(t);
  }

  /** What the as-written chain makes of `<`: the `&` of `&lt;` is escaped again. */
  lemma LessThanAsWritten()
    ensures EscapeAsWritten("<") == Amp + "lt;"
  {
    EntityFacts();
    var tail := "lt;";
    assert Lacks(tail, '&') && Lacks(tail, '"') && Lacks(tail, '\'');
    ReplaceAllOne('<', '<', Lt);
    ReplaceAllLacking(Lt, '>', Gt);
    assert Lt == "&" + tail;
    ReplaceAllConcat("&", tail, '&', Amp);
    ReplaceAllOne('&', '&', Amp);
    ReplaceAllLacking(tail, '&', Amp);
    var e := Amp + tail;
    LacksConcat(Amp, tail, '"');
    LacksConcat(Amp, tail, '\'');
    ReplaceAllLacking(e, '"', Quot);
    ReplaceAllLacking(e, '\'', Apos);
  }

  /** What the as-written chain makes of `&`. */
  lemma AmpersandAsWritten()
    ensures EscapeAsWritten("&") == Amp
  {
    EntityFacts();
    ReplaceAllOne('&', '<', Lt);
    ReplaceAllOne('&', '>', Gt);
    ReplaceAllOne('&', '&', Amp);
    ReplaceAllLacking(Amp, '"', Quot);
    ReplaceAllLacking(Amp, '\'', Apos);
  }

  /**
   * The as-written chain escapes `<` twice: `sanitizeInput('<')` is `&amp;lt;`, which decodes
   * to `&lt;` instead of `<`, while `&` comes out as `&amp;`.
   */
  lemma DoubleEscaped()
    ensures SanitizeInput(Str("<")) == Amp + "lt;"
    ensures Unescape(SanitizeInput(Str("<"))) == Lt
    ensures EscapeAsWritten("&") == Amp
  {
    EntityFacts();
    LessThanAsWritten();
    AmpersandAsWritten();
    var tail := "lt;";
    var e := Amp + tail;
    assert e[0] == '&' && e[|e| - 1] == ';';
    TrimUnchanged(e);
    assert Truthy(Str("<"));
    assert e[..|Amp|] == Amp && e[|Amp|..] == tail;
    UnescapePlain('l', "t;");
    UnescapePlain('t', ";");
    UnescapePlain(';', "");
    assert Unescape(tail) == tail;
  }

  /** A concatenation lacks what both parts lack. */
  lemma LacksConcat(a: string, b: string, c: char)
    requires Lacks(a, c) && Lacks(b, c)
    ensures Lacks(a + b, c)
  {
    assert forall i :: 0 <= i < |a + b| ==> (a + b)[i] == if i < |a| then a[i] else b[i - |a|];
  }

  /** The characters of the entities the proofs look at. */
  lemma EntityFacts()
    ensures |Amp| == 5 && |Lt| == 4 && |Gt| == 4 && |Quot| == 6 && |Apos| == 6
    ensures Amp[0] == '&' && Lt[0] == '&' && Gt[0] == '&' && Quot[0] == '&' && Apos[0] == '&'
    ensures Amp[1] == 'a' && Lt[1] == 'l' && Gt[1] == 'g' && Quot[1] == 'q' && Apos[1] == '#'
    ensures Amp[4] == ';' && Lt[3] == ';' && Gt[3] == ';' && Quot[5] == ';' && Apos[5] == ';'
    ensures Lacks(Amp, '<') && Lacks(Amp, '>') && Lacks(Amp, '"') && Lacks(Amp, '\'')
    ensures Lacks(Lt, '>') && Lacks(Lt, '"') && Lacks(Lt, '\'')
    ensures Lacks(Gt, '"') && Lacks(Gt, '\'') && Lacks(Quot, '\'')
  {
  }

  /** Replacing in a text without the character changes nothing. */
  lemma {:induction false} ReplaceAllLacking(s: string, c: char, rep: string)
    requires Lacks(s, c)
    ensures ReplaceAll(s, c, rep) == s
    decreases |s|
  {
    if |s| > 0 {
      ReplaceAllLacking(s[1..], c, rep);
      assert s == [s[0]] + s[1..];
    }
  }

  /** Replacing in a one-character text. */
  lemma ReplaceAllOne(d: char, c: char, rep: string)
    ensures ReplaceAll([d], c, rep) == if d == c then rep else [d]
  {
    assert [d][1..] == [];
  }

  /** A character other than `&` starts no entity and decodes as itself. */
  lemma UnescapePlain(c: char, rest: string)
    requires c != '&'
    ensures Unescape([c] + rest) == [c] + Unescape(rest)
  {
    EntityFacts();
    var e := [c] + rest;
    assert e[0] == c && e[1..] == rest;
  }

  /** The entity for a character, or the character itself. */
  function EscapeChar(c: char): (r: string)
    ensures |r| >= 1 && (r[0] == c || r[0] == '&')
  {
    if c == '&' then Amp
    else if c == '<' then Lt
    else if c == '>' then Gt
    else if c == '"' then Quot
    else if c == '\'' then Apos
    else [c]
  }

  /** Each character escaped on its own: what the chain does once `&` is replaced first. */
  function Escape(s: string): string
    decreases |s|
  {
    if |s| == 0 then "" else EscapeChar(s[0]) + Escape(s[1..])
  }

  /** The chain in the intended order: `&` first, then `<`, `>`, `"` and `'`. */
  function EscapeAmpersandFirst(s: string): string
  {
    ReplaceAll(ReplaceAll(ReplaceAll(ReplaceAll(ReplaceAll(s, '&', Amp), '<', Lt), '>', Gt), '"', Quot), '\'', Apos)
  }

  /** `sanitizeInput` with `&` replaced first. */
  function SanitizeInputCorrected(input: Value): (r: string)
    ensures !Truthy(input) ==> r == ""
    ensures r == [] || (!IsSpace(r[0]) && !IsSpace(r[|r| - 1]))
    ensures input.Str? && Trim(input.s) == input.s ==> Unescape(r) == input.s
  {
    if !Truthy(input) then ""
    else
      var s := Show(input);
      EscapeAmpersandFirstIsEscape(s);
      if Trim(s) == s then
        EscapeTrimmed(s);
        RoundTrip(s);
        Trim(EscapeAmpersandFirst(s))
      else Trim(EscapeAmpersandFirst(s))
  }

  /** Replacing `&` first escapes every character exactly once. */
  lemma {:induction false} EscapeAmpersandFirstIsEscape(s: string)
    ensures EscapeAmpersandFirst(s) == Escape(s)
    decreases |s|
  {
    if |s| > 0 {
      EscapeAmpersandFirstIsEscape(s[1..]);
      ReplaceAllConcat(s[..1], s[1..], '&', Amp);
      var a1 := ReplaceAll(s[..1], '&', Amp);
      var b1 := ReplaceAll(s[1..], '&', Amp);
      ReplaceAllConcat(a1, b1, '<', Lt);
      var a2 := ReplaceAll(a1, '<', Lt);
      var b2 := ReplaceAll(b1, '<', Lt);
      ReplaceAllConcat(a2, b2, '>', Gt);
      var a3 := ReplaceAll(a2, '>', Gt);
      var b3 := ReplaceAll(b2, '>', Gt);
      ReplaceAllConcat(a3, b3, '"', Quot);
      var a4 := ReplaceAll(a3, '"', Quot);
      var b4 := ReplaceAll(b3, '"', Quot);
      ReplaceAllConcat(a4, b4, '\'', Apos);
      assert s == s[..1] + s[1..];
      EscapeFirstChar(s[0]);
      assert s[..1] == [s[0]];
    }
  }

  /** The chain on a single character gives its entity. */
  lemma EscapeFirstChar(c: char)
    ensures EscapeAmpersandFirst([c]) == EscapeChar(c)
  {
    EntityFacts();
    ReplaceAllOne(c, '&', Amp);
    if c == '&' {
      ReplaceAllLacking(Amp, '<', Lt);
      ReplaceAllLacking(Amp, '>', Gt);
      ReplaceAllLacking(Amp, '"', Quot);
      ReplaceAllLacking(Amp, '\'', Apos);
    } else {
      ReplaceAllOne(c, '<', Lt);
      if c == '<' {
        ReplaceAllLacking(Lt, '>', Gt);
        ReplaceAllLacking(Lt, '"', Quot);
        ReplaceAllLacking(Lt, '\'', Apos);
      } else {
        ReplaceAllOne(c, '>', Gt);
        if c == '>' {
          ReplaceAllLacking(Gt, '"', Quot);
          ReplaceAllLacking(Gt, '\'', Apos);
        } else {
          ReplaceAllOne(c, '"', Quot);
          if c == '"' {
            ReplaceAllLacking(Quot, '\'', Apos);
          } else {
            ReplaceAllOne(c, '\'', Apos);
          }
        }
      }
    }
  }

  /** Replacing in a concatenation replaces in each part. */
  lemma {:induction false} ReplaceAllConcat(a: string, b: string, c: char, rep: string)
    ensures ReplaceAll(a + b, c, rep) == ReplaceAll(a, c, rep) + ReplaceAll(b, c, rep)
    decreases |a|
  {
    if |a| > 0 {
      ReplaceAllConcat(a[1..], b, c, rep);
      assert (a + b)[1..] == a[1..] + b;
    } else {
      assert a + b == b;
    }
  }

  /** Decoding the five entities; any other character stands for itself. */
  function Unescape(s: string): string
    decreases |s|
  {
    if |s| == 0 then ""
    else if StartsWith(s, Amp) then "&" + Unescape(s[|Amp|..])
    else if StartsWith(s, Lt) then "<" + Unescape(s[|Lt|..])
    else if StartsWith(s, Gt) then ">" + Unescape(s[|Gt|..])
    else if StartsWith(s, Quot) then "\"" + Unescape(s[|Quot|..])
    else if StartsWith(s, Apos) then "'" + Unescape(s[|Apos|..])
    else [s[0]] + Unescape(s[1..])
  }

  /** Decoding undoes the escaping of one character. */
  lemma UnescapeChar(c: char, rest: string)
    ensures Unescape(EscapeChar(c) + rest) == [c] + Unescape(rest)
  {
    EntityFacts();
    var x := EscapeChar(c);
    var e := x + rest;
    assert e[..|x|] == x && e[|x|..] == rest;
    if c == '&' {
    } else if c == '<' {
      assert e[1] == 'l';
    } else if c == '>' {
      assert e[1] == 'g';
    } else if c == '"' {
      assert e[1] == 'q';
    } else if c == '\'' {
      assert e[1] == '#';
    } else {
      UnescapePlain(c, rest);
    }
  }

  /** Decoding undoes escaping: with `&` replaced first the original text comes back. */
  lemma {:induction false} RoundTrip(s: string)
    ensures Unescape(Escape(s)) == s
    decreases |s|
  {
    if |s| > 0 {
      RoundTrip(s[1..]);
      UnescapeChar(s[0], Escape(s[1..]));
      assert s == [s[0]] + s[1..];
    }
  }

  /** Escaping a trimmed text needs no further trimming: entities start with `&` and end with `;`. */
  lemma EscapeTrimmed(s: string)
    requires Trim(s) == s
    ensures Trim(Escape(s)) == Escape(s)
  {
    if |s| > 0 {
      assert s != [];
      assert !IsSpace(s[0]) && !IsSpace(s[|s| - 1]);
      EscapeEnds(s);
      var e := Escape(s);
      assert !IsSpace(e[0]) && !IsSpace(e[|e| - 1]);
      TrimUnchanged(e);
    }
  }

  /** The first and last character of an escaped text are spaces only when the text's are. */
  lemma {:induction false} EscapeEnds(s: string)
    requires |s| > 0
    ensures |Escape(s)| > 0
    ensures IsSpace(Escape(s)[0]) ==> IsSpace(s[0])
    ensures IsSpace(Escape(s)[|Escape(s)| - 1]) ==> IsSpace(s[|s| - 1])
    decreases |s|
  {
    var e := EscapeChar(s[0]);
    if |s| == 1 {
      assert Escape(s) == e + Escape(s[1..]);
      assert Escape(s[1..]) == "";
    } else {
      EscapeEnds(s[1..]);
      assert s[1..][|s[1..]| - 1] == s[|s| - 1];
    }
  }

  /** A text with no space at either end trims to itself. */
  lemma TrimUnchanged(s: string)
    requires |s| > 0 && !IsSpace(s[0]) && !IsSpace(s[|s| - 1])
    ensures Trim(s) == s
  {
    assert TrimStart(s) == s;
    assert TrimEnd(s) == s;
  }

  // ---------------------------------------------------------------- validateLocation

  /**
   * `validateLocation(location)`: the value the `&&` chain gives — `false` for a falsy location,
   * a falsy city as it is, otherwise whether the city is a string and `lat` and `lng` are
   * defined.
   */
  function ValidateLocation(location: Value): (r: Value)
    ensures Truthy(r) <==>
      Truthy(location) && Field(location, "city").Str? && Field(location, "city").s != ""
      && Field(location, "lat") != Undefined && Field(location, "lng") != Undefined
    ensures r.Bool? || !Truthy(r)
  {
    if !Truthy(location) then Bool(false)
    else
      var city := Field(location, "city");
      if !Truthy(city) then city
      else if !city.Str? then Bool(false)
      else Bool(Field(location, "lat") != Undefined && Field(location, "lng") != Undefined)
  }

  /** A location with a city name and both coordinates is valid, whatever the coordinates are. */
  lemma CompleteLocationValid(city: string, lat: Value, lng: Value, rest: map<string, Value>)
    requires city != "" && lat != Undefined && lng != Undefined
    ensures ValidateLocation(Obj(rest["city" := Str(city)]["lat" := lat]["lng" := lng])) == Bool(true)
  {
  }

  /** A missing location, a missing or empty city, or a city that is not a string is refused. */
  lemma IncompleteLocationRefused(location: Value)
    ensures location.Undefined? || location.Null? ==> !Truthy(ValidateLocation(location))
    ensures Truthy(location) && !Field(location, "city").Str? ==> !Truthy(ValidateLocation(location))
    ensures Truthy(location) && Field(location, "city") == Str("") ==> !Truthy(ValidateLocation(location))
  {
  }
}
