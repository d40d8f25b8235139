/**
 * The stored user record and the schema rules it obeys: the email is
 * required, unique, lower-cased and trimmed; points default to 0 and coins
 * to 1000, and neither may be negative.
 */
module UserModel {
  import opened Common

  datatype User = User(email: string, points: int, coins: int)

  const DefaultPoints: int := 0
  const DefaultCoins: int := 1000

  /** The characters `String.prototype.trim` removes: white space and line terminators. */
  const Spaces: set<char> := {
    '\t', '\n', '\U{000B}', '\U{000C}', '\r', ' ', '\U{00A0}', '\U{1680}',
    '\U{2028}', '\U{2029}', '\U{202F}', '\U{205F}', '\U{3000}', '\U{FEFF}'}

  predicate IsSpace(c: char)
  {
    c in Spaces || '\U{2000}' <= c <= '\U{200A}'
  }

  /** Drop leading white space. */
  function TrimStart(s: string): (r: string)
    ensures |r| <= |s| && r == s[|s| - |r|..]
    ensures r == [] || !IsSpace(r[0])
    ensures forall k :: 0 <= k < |s| - |r| ==> IsSpace(s[k])
  {
    if s == [] || !IsSpace(s[0]) then s
    else
      var t := TrimStart(s[1..]);
      assert forall k :: 1 <= k < |s| ==> s[k] == s[1..][k - 1];
      t
  }

  /** Drop trailing white space. */
  function TrimEnd(s: string): (r: string)
    ensures |r| <= |s| && r == s[..|r|]
    ensures r == [] || !IsSpace(r[|r| - 1])
    ensures forall k :: |r| <= k < |s| ==> IsSpace(s[k])
  {
    if s == [] || !IsSpace(s[|s| - 1]) then s
    else
      var t := TrimEnd(s[..|s| - 1]);
      assert forall k :: 0 <= k < |s| - 1 ==> s[k] == s[..|s| - 1][k];
      t
  }

  /** `r` is the part of `s` that starts at index `a`. */
  predicate SliceAt(s: string, a: int, r: string)
  {
    0 <= a <= |s| - |r| && r == s[a..a + |r|]
  }

  /** `r` is the part of `s` at index `a`, and everything around it is white space. */
  predicate TrimmedSlice(s: string, a: int, r: string)
  {
    SliceAt(s, a, r) &&
    (forall i :: 0 <= i < a ==> IsSpace(s[i])) &&
    (forall i :: a + |r| <= i < |s| ==> IsSpace(s[i]))
  }

  /**
   * `trim: true`: white space removed at both ends, nothing else touched; the
   * result is the slice of `s` with only white space around it and none at
   * its own ends.
   */
  function Trim(s: string): (r: string)
    ensures r == [] || (!IsSpace(r[0]) && !IsSpace(r[|r| - 1]))
    ensures exists a :: TrimmedSlice(s, a, r)
  {
    TrimBothEnds(s);
    TrimEnd(TrimStart(s))
  }

  /** Trimming the start and then the end leaves the slice between the white space. */
  lemma TrimBothEnds(s: string)
    ensures TrimmedSlice(s, |s| - |TrimStart(s)|, TrimEnd(TrimStart(s)))
  {
    var t := TrimStart(s);
    SuffixSlice(s, |s| - |t|, t, TrimEnd(t));
  }

  /**
   * A prefix `r` of the suffix `t` of `s` at `a`, followed in `t` by white
   * space only, is a slice of `s` followed in `s` by white space only.
   */
  lemma SuffixSlice(s: string, a: int, t: string, r: string)
    requires 0 <= a <= |s| && t == s[a..]
    requires |r| <= |t| && r == t[..|r|]
    requires forall k :: |r| <= k < |t| ==> IsSpace(t[k])
    ensures SliceAt(s, a, r)
    ensures forall i :: a + |r| <= i < |s| ==> IsSpace(s[i])
  {
    assert r == s[a..a + |r|];
    forall i | a + |r| <= i < |s|
      ensures IsSpace(s[i])
    {
      assert s[i] == t[i - a];
    }
  }

  /** A string that already starts with a non-space is left alone by `TrimStart`, and likewise at the end. */
  lemma TrimStartNoop(s: string)
    requires s == [] || !IsSpace(s[0])
    ensures TrimStart(s) == s
  {
  }

  lemma TrimEndNoop(s: string)
    requires s == [] || !IsSpace(s[|s| - 1])
    ensures TrimEnd(s) == s
  {
  }

  /** Trimming twice is trimming once. */
  lemma TrimIdempotent(s: string)
    ensures Trim(Trim(s)) == Trim(s)
  {
    var r := Trim(s);
    TrimStartNoop(r);
    TrimEndNoop(r);
  }

  /** Lower-case for ASCII letters; every other character is kept. */
  function LowerChar(c: char): (d: char)
    ensures !('A' <= d <= 'Z')
    ensures IsSpace(d) <==> IsSpace(c)
  {
    if 'A' <= c <= 'Z' then (c as int + 32) as char else c
  }

  /** `lowercase: true`, on ASCII letters. */
  function Lower(s: string): (r: string)
    ensures |r| == |s|
    ensures forall i :: 0 <= i < |r| ==> r[i] == LowerChar(s[i])
  {
    if s == [] then [] else [LowerChar(s[0])] + Lower(s[1..])
  }

  lemma {:induction false} LowerTrimStart(s: string)
    ensures TrimStart(Lower(s)) == Lower(TrimStart(s))
    decreases |s|
  {
    if s != [] && IsSpace(s[0]) {
      assert Lower(s)[1..] == Lower(s[1..]);
      LowerTrimStart(s[1..]);
    }
  }

  lemma {:induction false} LowerTrimEnd(s: string)
    ensures TrimEnd(Lower(s)) == Lower(TrimEnd(s))
    decreases |s|
  {
    if s != [] && IsSpace(s[|s| - 1]) {
      assert Lower(s)[..|s| - 1] == Lower(s[..|s| - 1]);
      LowerTrimEnd(s[..|s| - 1]);
    }
  }

  /** The two setters commute, so the order the schema applies them in does not matter. */
  lemma LowerTrimCommute(s: string)
    ensures Lower(Trim(s)) == Trim(Lower(s))
  {
    LowerTrimStart(s);
    LowerTrimEnd(TrimStart(s));
  }

  /**
   * The stored form of an email: the lower-cased email with the white space
   * at both ends cut off.
   */
  function Normalize(email: string): (r: string)
    ensures r == [] || (!IsSpace(r[0]) && !IsSpace(r[|r| - 1]))
    ensures exists a :: TrimmedSlice(Lower(email), a, r)
    ensures |r| <= |email|
    ensures forall i :: 0 <= i < |r| ==> !('A' <= r[i] <= 'Z')
  {
    var l := Lower(email);
    var r := Trim(l);
    SliceKeepsNoCapitals(l, r);
    r
  }

  /** A slice of a string without ASCII capitals has none either. */
  lemma SliceKeepsNoCapitals(l: string, r: string)
    requires forall i :: 0 <= i < |l| ==> !('A' <= l[i] <= 'Z')
    requires exists a :: TrimmedSlice(l, a, r)
    ensures forall i :: 0 <= i < |r| ==> !('A' <= r[i] <= 'Z')
  {
    var a :| TrimmedSlice(l, a, r);
    assert forall i :: 0 <= i < |r| ==> r[i] == l[a + i];
  }

  /** An email in stored form: no ASCII capitals, no white space at either end. */
  predicate IsNormalized(e: string)
  {
    (forall i :: 0 <= i < |e| ==> !('A' <= e[i] <= 'Z')) &&
    (e == [] || (!IsSpace(e[0]) && !IsSpace(e[|e| - 1])))
  }

  /** The stored forms are exactly the fixed points of `Normalize`. */
  lemma NormalizedIffFixed(e: string)
    ensures IsNormalized(e) <==> Normalize(e) == e
  {
    if IsNormalized(e) {
      LowerNoop(e);
      TrimStartNoop(e);
      TrimEndNoop(e);
    }
  }

  /** Lower-casing a string without ASCII capitals changes nothing. */
  lemma LowerNoop(e: string)
    requires forall i :: 0 <= i < |e| ==> !('A' <= e[i] <= 'Z')
    ensures Lower(e) == e
  {
    assert forall i :: 0 <= i < |e| ==> Lower(e)[i] == e[i];
  }

  /** Normalizing a stored email changes nothing. */
  lemma NormalizeIdempotent(email: string)
    ensures Normalize(Normalize(email)) == Normalize(email)
  {
    NormalizedIffFixed(Normalize(email));
  }

  /** A record the schema accepts. */
  predicate ValidUser(u: User)
  {
    u.email != [] && IsNormalized(u.email) && u.points >= 0 && u.coins >= 0
  }

  datatype SchemaError = EmailRequired | PointsBelowMin | CoinsBelowMin

  /**
   * A new document: missing numbers take their defaults, the email is
   * normalized, then the validators run (required, then the two minimums).
   */
  function NewUser(email: Option<string>, points: Option<int>, coins: Option<int>): (r: Result<User, SchemaError>)
    ensures r.Ok? ==> ValidUser(r.value)
    ensures r.Ok? ==> email.Some? && r.value.email == Normalize(email.value)
    ensures r.Ok? ==> r.value.points == (if points.Some? then points.value else DefaultPoints)
    ensures r.Ok? ==> r.value.coins == (if coins.Some? then coins.value else DefaultCoins)
    ensures r == Err(EmailRequired) <==> email.None? || Normalize(email.value) == []
    ensures r.Ok? <==>
      email.Some? && Normalize(email.value) != [] &&
      (if points.Some? then points.value else DefaultPoints) >= 0 &&
      (if coins.Some? then coins.value else DefaultCoins) >= 0
    ensures r == Err(PointsBelowMin) <==>
      email.Some? && Normalize(email.value) != [] && (if points.Some? then points.value else DefaultPoints) < 0
  {
    var p := if points.Some? then points.value else DefaultPoints;
    var c := if coins.Some? then coins.value else DefaultCoins;
    if email.None? then Err(EmailRequired)
    else
      var e := Normalize(email.value);
      if e == [] then Err(EmailRequired)
      else if p < 0 then Err(PointsBelowMin)
      else if c < 0 then Err(CoinsBelowMin)
      else Ok(User(e, p, c))
  }

  /** A save of changed numbers: the validators run again on the record. */
  function Revalidate(u: User): (r: Result<User, SchemaError>)
    requires u.email != [] && IsNormalized(u.email)
    ensures r.Ok? <==> ValidUser(u)
    ensures r.Ok? ==> r.value == u
    ensures u.points < 0 ==> r == Err(PointsBelowMin)
    ensures u.points >= 0 && u.coins < 0 ==> r == Err(CoinsBelowMin)
  {
    if u.points < 0 then Err(PointsBelowMin)
    else if u.coins < 0 then Err(CoinsBelowMin)
    else Ok(u)
  }
}
