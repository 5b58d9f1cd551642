/**
 * The fallback geocoder: a fixed table of five cities, scanned in order for keys that occur in
 * the normalised query; the last key that occurs decides the answer.
 */
module LocationsFallback {

  import opened Wrappers
  import opened Text

  /** One geocoding result of the table. */
  datatype Place = Place(formatted: string, lat: real, lng: real, city: string, country: string)

  /** `FALLBACK_LOCATIONS`, in the order its keys are listed. */
  const Table: seq<(string, Place)> := [
    ("dallas", Place("Dallas, Texas, United States", 32.7767, -96.7970, "Dallas", "United States")),
    ("london", Place("London, England, United Kingdom", 51.5074, -0.1278, "London", "United Kingdom")),
    ("tokyo", Place("Tokyo, Japan", 35.6762, 139.6503, "Tokyo", "Japan")),
    ("paris", Place("Paris, Île-de-France, France", 48.8566, 2.3522, "Paris", "France")),
    ("new york", Place("New York, NY, United States", 40.7128, -74.0060, "New York", "United States"))
  ]

  /** The results after scanning the first `n` keys: the entry of the last key that occurs in the query. */
  function Matches(query: string, n: nat): (r: seq<Place>)
    requires n <= |Table|
    ensures |r| <= 1
  {
    if n == 0 then []
    else if Contains(query, Table[n - 1].0) then [Table[n - 1].1]
    else Matches(query, n - 1)
  }

  /** The scan of `GET`: every key is tried and a later match overwrites an earlier one. */
  method Scan(query: string) returns (results: seq<Place>)
    ensures results == Matches(query, |Table|)
  {
    results := [];
    for i := 0 to |Table|
      invariant results == Matches(query, i)
    {
      if Contains(query, Table[i].0) {
        results := [Table[i].1];
      }
    }
  }

  /** What `GET` answers. */
  datatype LocationsResponse = Found(results: seq<Place>, source: string) | Refused(status: nat, error: string)

  /** `query.toLowerCase().trim()`. */
  function Normalize(query: string): (r: string)
    ensures |r| <= |query|
    ensures r == [] || (!IsSpace(r[0]) && !IsSpace(r[|r| - 1]))
    ensures forall i :: 0 <= i < |r| ==> !('A' <= r[i] <= 'Z')
  {
    TrimOfLowerHasNoUpper(query);
    Trim(ToLower(query))
  }

  /** Trimming only drops characters, so a lower-cased text stays free of upper-case letters. */
  lemma TrimOfLowerHasNoUpper(query: string)
    ensures forall i :: 0 <= i < |Trim(ToLower(query))| ==> !('A' <= Trim(ToLower(query))[i] <= 'Z')
  {
    var l := ToLower(query);
    var k := TrimIsSlice(l);
    var r := Trim(l);
    forall i | 0 <= i < |r|
      ensures !('A' <= r[i] <= 'Z')
    {
      assert r[i] == l[k + i] == LowerChar(query[k + i]);
      LowerCharNotUpper(query[k + i]);
    }
  }

  /** `GET` for the `q` parameter (`None` when it is absent). */
  function Lookup(query: Option<string>): (r: LocationsResponse)
    ensures r.Refused? <==> query.None? || |Trim(query.value)| < 2
    ensures r.Refused? ==> r.status == 400
    ensures r.Found? ==> r.source == "fallback" && |r.results| <= 1
  {
    if query.None? || query.value == "" || |Trim(query.value)| < 2 then
      Refused(400, "Please provide a search query of at least 2 characters")
    else Found(Matches(Normalize(query.value), |Table|), "fallback")
  }

  /** `GET`, scanning the table with a loop. */
  method Get(query: Option<string>) returns (r: LocationsResponse)
    ensures r == Lookup(query)
  {
    if query.None? || query.value == "" || |Trim(query.value)| < 2 {
      return Refused(400, "Please provide a search query of at least 2 characters");
    }
    var normalized := Trim(ToLower(query.value));
    var results := Scan(normalized);
    r := Found(results, "fallback");
  }

  /** A key that occurs with no later key occurring decides the results. */
  lemma {:induction false} LastMatchWins(query: string, n: nat, j: nat)
    requires j < n <= |Table|
    requires Contains(query, Table[j].0)
    requires forall k :: j < k < n ==> !Contains(query, Table[k].0)
    ensures Matches(query, n) == [Table[j].1]
    decreases n
  {
    if n - 1 != j {
      LastMatchWins(query, n - 1, j);
    }
  }

  /** The results are empty exactly when no key occurs in the query. */
  lemma {:induction false} EmptyIffNoKey(query: string, n: nat)
    requires n <= |Table|
    ensures Matches(query, n) == [] <==> forall k :: 0 <= k < n ==> !Contains(query, Table[k].0)
    ensures Matches(query, n) == [] || exists k :: 0 <= k < n && Matches(query, n) == [Table[k].1]
    decreases n
  {
    if n > 0 {
      EmptyIffNoKey(query, n - 1);
    }
  }

  /** The keys, in the order the scan tries them. */
  lemma TableOrder()
    ensures seq(|Table|, i requires 0 <= i < |Table| => Table[i].0) == ["dallas", "london", "tokyo", "paris", "new york"]
  {
  }

  /** Lower-casing changes no white space. */
  lemma LowerKeepsSpace(c: char)
    ensures IsSpace(LowerChar(c)) <==> IsSpace(c)
  {
  }

  /** Lower-casing and trimming the start can be done in either order. */
  lemma {:induction false} TrimStartLower(s: string)
    ensures TrimStart(ToLower(s)) == ToLower(TrimStart(s))
    decreases |s|
  {
    if |s| > 0 {
      LowerKeepsSpace(s[0]);
      assert ToLower(s)[1..] == ToLower(s[1..]);
      TrimStartLower(s[1..]);
    }
  }

  /** Lower-casing and trimming the end can be done in either order. */
  lemma {:induction false} TrimEndLower(s: string)
    ensures TrimEnd(ToLower(s)) == ToLower(TrimEnd(s))
    decreases |s|
  {
    if |s| > 0 {
      LowerKeepsSpace(s[|s| - 1]);
      assert ToLower(s)[..|s| - 1] == ToLower(s[..|s| - 1]);
      TrimEndLower(s[..|s| - 1]);
    }
  }

  /** Lower-casing first changes neither the trimmed length nor the normalised query. */
  lemma LowerThenNormalize(query: string)
    ensures |Trim(ToLower(query))| == |Trim(query)|
    ensures Normalize(ToLower(query)) == Normalize(query)
  {
    TrimStartLower(query);
    TrimEndLower(TrimStart(query));
    assert Trim(ToLower(query)) == ToLower(Trim(query));
    ToLowerIdempotent(query);
  }

  /** Matching ignores case: a query and its lower-cased form get the same answer. */
  lemma CaseIgnored(query: string)
    ensures Lookup(Some(ToLower(query))) == Lookup(Some(query))
  {
    LowerThenNormalize(query);
  }

  /** A leading blank is trimmed away, also after lower-casing. */
  lemma LeadingSpaceTrimmed(query: string)
    ensures Trim(" " + query) == Trim(query)
    ensures Normalize(" " + query) == Normalize(query)
  {
    var q := " " + query;
    assert q[1..] == query;
    assert ToLower(q)[1..] == ToLower(query);
    assert TrimStart(ToLower(q)) == TrimStart(ToLower(query));
  }

  /** Matching ignores white space before the query. */
  lemma LeadingSpaceIgnored(query: string)
    ensures Lookup(Some(" " + query)) == Lookup(Some(query))
  {
    LeadingSpaceTrimmed(query);
  }

  /** Trimming the start of a text with a blank appended keeps the blank, unless nothing else is left. */
  lemma {:induction false} TrimStartAppendSpace(s: string)
    ensures TrimStart(s + " ") == if TrimStart(s) == [] then [] else TrimStart(s) + " "
    decreases |s|
  {
    if |s| == 0 {
      assert s + " " == " ";
      assert " "[1..] == "";
    } else {
      assert (s + " ")[0] == s[0];
      assert (s + " ")[1..] == s[1..] + " ";
      if IsSpace(s[0]) {
        TrimStartAppendSpace(s[1..]);
      }
    }
  }

  /** A trailing blank is trimmed away. */
  lemma TrimAppendSpace(s: string)
    ensures Trim(s + " ") == Trim(s)
  {
    TrimStartAppendSpace(s);
    var t := TrimStart(s);
    if t != [] {
      var e := t + " ";
      assert IsSpace(e[|e| - 1]);
      assert e[..|e| - 1] == t;
    }
  }

  /** A trailing blank is trimmed away, also after lower-casing. */
  lemma TrailingSpaceTrimmed(query: string)
    ensures Trim(query + " ") == Trim(query)
    ensures Normalize(query + " ") == Normalize(query)
  {
    TrimAppendSpace(query);
    assert ToLower(query + " ") == ToLower(query) + " ";
    TrimAppendSpace(ToLower(query));
  }

  /** Matching ignores white space after the query. */
  lemma TrailingSpaceIgnored(query: string)
    ensures Lookup(Some(query + " ")) == Lookup(Some(query))
  {
    TrailingSpaceTrimmed(query);
  }
}
