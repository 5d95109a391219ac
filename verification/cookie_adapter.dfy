/** The cookie callbacks handed to the browser Supabase client
    (src/lib/supabase/client.ts; with-supabase-app/lib/supabase/client.ts
    has the same three callbacks). `get` reads one cookie out of the
    `document.cookie` string, whose pairs are separated by `"; "` as in
    section 4.2.1 of RFC 6265; `set` and `remove` build the string assigned
    to `document.cookie`, with the `path`, `max-age` and `expires`
    attributes of section 4.1.2 of RFC 6265. The process environment is a
    map. */
module CookieAdapter {
  import opened Text

  const UrlVar: string := "NEXT_PUBLIC_SUPABASE_URL"
  const KeyVar: string := "NEXT_PUBLIC_SUPABASE_ANON_KEY"
  const MissingEnv: string := "Missing Supabase environment variables"
  const DefaultMaxAge: int := 31536000

  datatype Config = Config(url: string, anonKey: string)

  datatype Result<T> = Ok(value: T) | Err(message: string)

  /** `createClient()` of src/lib/supabase/client.ts: both variables must
      be set and non-empty, or it throws. */
  function CreateClient(env: map<string, string>): (r: Result<Config>)
    ensures r.Ok? <==> UrlVar in env && env[UrlVar] != "" && KeyVar in env && env[KeyVar] != ""
    ensures r.Ok? ==> r.value.url == env[UrlVar] && r.value.anonKey == env[KeyVar]
    ensures r.Err? ==> r.message == MissingEnv
  {
    if UrlVar !in env || env[UrlVar] == "" || KeyVar !in env || env[KeyVar] == "" then Err(MissingEnv)
    else Ok(Config(env[UrlVar], env[KeyVar]))
  }

  // ---------------------------------------------------------------------
  // get

  /** `rows.find(row => row.startsWith(prefix))`, as the index found. */
  function FirstWith(rows: seq<string>, prefix: string): (k: Option<nat>)
    ensures k.Some? ==> k.value < |rows| && StartsWith(rows[k.value], prefix)
    ensures k.Some? ==> forall j :: 0 <= j < k.value ==> !StartsWith(rows[j], prefix)
    ensures k.None? <==> forall j :: 0 <= j < |rows| ==> !StartsWith(rows[j], prefix)
    decreases |rows|
  {
    if rows == [] then None
    else if StartsWith(rows[0], prefix) then Some(0)
    else
      var k := FirstWith(rows[1..], prefix);
      if k.None? then None else Some(k.value + 1)
  }

  /** `row.split('=')[1]` for a row starting with `name=`: a value never
      holds `=`, and for a name without `=` it is the text after `name=`
      up to the next `=` or the end of the row. */
  function ValueOf(row: string, name: string): (v: string)
    requires StartsWith(row, name + "=")
    ensures !Contains(v, "=")
    ensures !Contains(name, "=") ==>
      && StartsWith(row, name + "=" + v)
      && (|row| == |name| + 1 + |v| || row[|name| + 1 + |v|] == '=')
  {
    assert Contains(row, "=") by {
      assert row == row[..|name|] + "=" + row[|name| + 1..];
      ContainsInside(row[..|name|], "=", row[|name| + 1..]);
    }
    SplitAtLeastTwo(row, "=");
    SplitPiecesFree(row, "=");
    if !Contains(name, "=") then
      ValueShape(row, name);
      Split(row, "=")[1]
    else Split(row, "=")[1]
  }

  lemma ValueShape(row: string, name: string)
    requires StartsWith(row, name + "=") && !Contains(name, "=")
    ensures |Split(row, "=")| >= 2
    ensures var v := Split(row, "=")[1];
      && StartsWith(row, name + "=" + v)
      && (|row| == |name| + 1 + |v| || row[|name| + 1 + |v|] == '=')
  {
    var tail := row[|name| + 1..];
    assert row == name + "=" + tail;
    SplitHead(name, "=", tail);
    var v := Split(tail, "=")[0];
    SplitFirstIsPrefix(tail, "=");
    SplitFirstStops(tail, "=");
    assert row[..|name| + 1 + |v|] == name + "=" + v;
    if |row| != |name| + 1 + |v| {
      assert row[|name| + 1 + |v|] == tail[|v|..][0];
    }
  }

  /** `get(name)` over the cookie string: the value of the first pair that
      starts with `name=`, or nothing when none does. */
  function Get(cookie: string, name: string): (r: Option<string>)
    ensures r.None? ==> forall j :: 0 <= j < |Split(cookie, "; ")| ==> !StartsWith(Split(cookie, "; ")[j], name + "=")
    ensures r.Some? ==> exists j :: 0 <= j < |Split(cookie, "; ")| && StartsWith(Split(cookie, "; ")[j], name + "=")
    ensures r.Some? ==> !Contains(r.value, "=")
  {
    var rows := Split(cookie, "; ");
    var k := FirstWith(rows, name + "=");
    if k.None? then None
    else
      assert !forall j :: 0 <= j < |rows| ==> !StartsWith(rows[j], name + "=") by {
        assert StartsWith(rows[k.value], name + "=");
      }
      Some(ValueOf(rows[k.value], name))
  }

  /** Two occurrences of `"; "` cannot overlap. */
  lemma PairSeparatorUnbordered()
    ensures Unbordered("; ")
  {
    forall d | 0 < d < |"; "| ensures !StartsWith("; ", "; "[d..]) {
      assert "; "[d..][0] == ' ' != ';' == "; "[..|"; "[d..]|][0];
    }
  }

  /** Splitting a cookie string whose first pair holds no separator. */
  lemma RowsOf(pair: string, rest: string)
    requires !Contains(pair, "; ")
    ensures Split(pair + "; " + rest, "; ") == [pair] + Split(rest, "; ")
    ensures Split(pair, "; ") == [pair]
  {
    PairSeparatorUnbordered();
    SplitHead(pair, "; ", rest);
    SplitWithout(pair, "; ");
  }

  /** The first pair is read back whole, alone or followed by more. */
  lemma GetFirstPair(name: string, value: string, rest: string)
    requires !Contains(name, "=") && !Contains(value, "=") && !Contains(name + "=" + value, "; ")
    ensures Get(Pair(name, value) + "; " + rest, name) == Some(value)
    ensures Get(Pair(name, value), name) == Some(value)
  {
    var pair := Pair(name, value);
    RowsOf(pair, rest);
    SplitHead(name, "=", value);
    SplitWithout(value, "=");
    assert Split(pair, "=") == [name, value];
  }

  /** A first pair that does not start with `name=` is skipped. */
  lemma GetSkips(other: string, rest: string, name: string)
    requires !Contains(other, "; ") && !StartsWith(other, name + "=")
    ensures Get(other + "; " + rest, name) == Get(rest, name)
  {
    RowsOf(other, rest);
    var rows := Split(other + "; " + rest, "; ");
    assert rows[1..] == Split(rest, "; ");
  }

  /** A value holding `=` is cut at it: `a=b=c` reads as `b` for `a`. */
  lemma GetTruncates(name: string, a: string, b: string)
    requires !Contains(name, "=") && !Contains(a, "=") && !Contains(name + "=" + a + "=" + b, "; ")
    ensures Get(name + "=" + a + "=" + b, name) == Some(a)
  {
    var pair := name + "=" + a + "=" + b;
    RowsOf(pair, "");
    assert pair == name + "=" + (a + "=" + b);
    SplitHead(name, "=", a + "=" + b);
    SplitHead(a, "=", b);
  }

  /** A name that is only the beginning of the cookie's name does not
      match it: `ab=1` has no value for `a`. */
  lemma PrefixNameMisses(n1: string, n2: string, v: string)
    requires n2 != "" && !Contains(n1 + n2, "=") && !Contains(n1 + n2 + "=" + v, "; ")
    ensures Get(n1 + n2 + "=" + v, n1) == None
  {
    var pair := n1 + n2 + "=" + v;
    RowsOf(pair, "");
    assert n1 + n2 == n1 + [n2[0]] + n2[1..];
    ContainsInside(n1, [n2[0]], n2[1..]);
    assert pair[|n1|] == n2[0] != '=';
    assert !StartsWith(pair, n1 + "=");
  }

  // ---------------------------------------------------------------------
  // set and remove

  /** `options?.maxAge || 31536000`: an absent or zero maximum age becomes
      one year, in seconds. */
  function MaxAge(maxAge: Option<int>): (n: int)
    ensures n != 0
    ensures maxAge.Some? && maxAge.value != 0 ==> n == maxAge.value
    ensures maxAge.None? || maxAge.value == 0 ==> n == DefaultMaxAge
  {
    if maxAge.None? || maxAge.value == 0 then DefaultMaxAge else maxAge.value
  }

  function DigitChar(d: nat): (c: char)
    requires d < 10
    ensures IsDigit(c)
  {
    (48 + d) as char
  }

  predicate IsDigit(c: char) {
    '0' <= c <= '9'
  }

  predicate AllDigits(s: string) {
    forall i :: 0 <= i < |s| ==> IsDigit(s[i])
  }

  /** The decimal form of a number, as a template literal writes it. */
  function NatString(n: nat): (s: string)
    ensures |s| >= 1 && AllDigits(s)
    decreases n
  {
    if n < 10 then [DigitChar(n)] else NatString(n / 10) + [DigitChar(n % 10)]
  }

  function IntString(n: int): (s: string)
    ensures |s| >= 1
  {
    if n < 0 then "-" + NatString(-n) else NatString(n)
  }

  /** The value of a string of decimal digits. */
  function ParseNat(s: string): nat
    requires AllDigits(s)
    decreases |s|
  {
    if s == [] then 0 else 10 * ParseNat(s[..|s| - 1]) + (s[|s| - 1] as int - 48)
  }

  /** The reading of a `max-age` value (section 5.2.2 of RFC 6265): an
      optional `-`, then one or more digits; anything else is ignored. */
  function ParseDelta(s: string): Option<int> {
    if |s| > 1 && s[0] == '-' && AllDigits(s[1..]) then Some(0 - ParseNat(s[1..]) as int)
    else if |s| > 0 && AllDigits(s) then Some(ParseNat(s))
    else None
  }

  lemma {:induction false} ParseNatString(n: nat)
    ensures ParseNat(NatString(n)) == n
    decreases n
  {
    if n >= 10 {
      var s := NatString(n);
      assert s[..|s| - 1] == NatString(n / 10);
      ParseNatString(n / 10);
    }
  }

  /** Every number is read back from its decimal form. */
  lemma IntStringRoundTrip(n: int)
    ensures ParseDelta(IntString(n)) == Some(n)
  {
    if n < 0 {
      ParseNatString(-n);
      assert IntString(n)[1..] == NatString(-n);
    } else {
      ParseNatString(n);
    }
  }

  /** The attributes `set` writes after the pair. */
  function SetAttributes(maxAge: Option<int>): string {
    "path=/; max-age=" + IntString(MaxAge(maxAge))
  }

  /** The `name=value` pair that leads what `set` and `remove` write. */
  function Pair(name: string, value: string): string {
    name + "=" + value
  }

  /** `set(name, value, options)`: the string assigned to `document.cookie`. */
  function SetCookie(name: string, value: string, maxAge: Option<int>): (s: string)
    ensures StartsWith(s, Pair(name, value) + "; ")
  {
    Pair(name, value) + "; " + SetAttributes(maxAge)
  }

  /** What `set` writes reads back: the pair gives the value to `get`, and
      the `max-age` attribute gives the maximum age, never zero, so the
      cookie is never written already expired by a zero age. */
  lemma SetThenGet(name: string, value: string, maxAge: Option<int>)
    requires !Contains(name, "=") && !Contains(value, "=") && !Contains(name + "=" + value, "; ")
    ensures Get(SetCookie(name, value, maxAge), name) == Some(value)
    ensures ParseDelta(SetAttributes(maxAge)[|"path=/; max-age="|..]) == Some(MaxAge(maxAge))
    ensures MaxAge(maxAge) != 0
  {
    GetFirstPair(name, value, SetAttributes(maxAge));
    assert SetAttributes(maxAge)[|"path=/; max-age="|..] == IntString(MaxAge(maxAge));
    IntStringRoundTrip(MaxAge(maxAge));
  }

  const Epoch: string := "Thu, 01 Jan 1970 00:00:00 GMT"

  /** The attributes `remove` writes after the pair: an expiry date at the
      epoch, long past. */
  function RemoveAttributes(): string {
    "path=/; expires=" + Epoch
  }

  /** `remove(name)`: an empty value expiring at the epoch. */
  function Remove(name: string): (s: string)
    ensures StartsWith(s, Pair(name, "") + "; ")
  {
    Pair(name, "") + "; " + RemoveAttributes()
  }

  /** What `remove` writes reads back as an empty value. */
  lemma RemoveThenGet(name: string)
    requires !Contains(name, "=") && !Contains(name + "=", "; ")
    ensures Get(Remove(name), name) == Some("")
  {
    assert !Contains("", "=");
    assert Pair(name, "") == name + "=";
    GetFirstPair(name, "", RemoveAttributes());
  }
}
