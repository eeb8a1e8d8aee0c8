/** Small vocabulary shared by the server and client models. */
module Common {

  /** A value that may be absent: C#'s `null`, JavaScript's `null`/`undefined`. */
  datatype Option<+T> = None | Some(value: T)

  /** The characters .NET's `char.IsWhiteSpace` accepts: the Unicode space, line and
      paragraph separators, the control characters U+0009..U+000D, and U+0085. */
  predicate IsWhiteSpace(c: char)
  {
    || ('\U{0009}' <= c <= '\U{000D}')
    || c == '\U{0020}' || c == '\U{0085}' || c == '\U{00A0}' || c == '\U{1680}'
    || ('\U{2000}' <= c <= '\U{200A}')
    || c == '\U{2028}' || c == '\U{2029}' || c == '\U{202F}' || c == '\U{205F}' || c == '\U{3000}'
  }

  /** .NET's `string.IsNullOrWhiteSpace`. */
  predicate IsNullOrWhiteSpace(s: Option<string>)
  {
    match s
    case None => true
    case Some(t) => forall i | 0 <= i < |t| :: IsWhiteSpace(t[i])
  }

  /** A string is blank exactly when both of its parts are: typing a visible
      character anywhere makes it non-blank. */
  lemma {:induction false} BlankConcat(a: string, b: string)
    ensures IsNullOrWhiteSpace(Some(a + b)) <==> IsNullOrWhiteSpace(Some(a)) && IsNullOrWhiteSpace(Some(b))
    ensures IsNullOrWhiteSpace(None) && IsNullOrWhiteSpace(Some(""))
  {
    assert forall i | 0 <= i < |a| :: (a + b)[i] == a[i];
    assert forall i | 0 <= i < |b| :: (a + b)[|a| + i] == b[i];
  }

  /** JavaScript's `a || fallback` where `a` is a string that may be missing:
      the empty string, `null` and `undefined` are all falsy. */
  function OrElse(a: Option<string>, fallback: string): (r: string)
    ensures a.Some? && a.value != "" ==> r == a.value
    ensures (a.None? || a.value == "") ==> r == fallback
  {
    if a.Some? && a.value != "" then a.value else fallback
  }

  /** A string is truthy in JavaScript exactly when it is present and non-empty. */
  predicate Truthy(a: Option<string>)
  {
    a.Some? && a.value != ""
  }

  /** The number of UTF-16 code units that encode `s`: what .NET's `string.Length` and
      JavaScript's `length` count. A `char` here is a Unicode scalar value, and one
      above U+FFFF takes two units (a surrogate pair). */
  function Utf16Length(s: string): (n: nat)
    ensures |s| <= n <= 2 * |s|
  {
    if s == [] then 0 else (if s[0] as int > 0xFFFF then 2 else 1) + Utf16Length(s[1..])
  }

  /** A string is as long in code units as in characters exactly when it has no
      character above U+FFFF, and twice as long exactly when all of them are. */
  lemma {:induction false} Utf16LengthExtremes(s: string)
    ensures Utf16Length(s) == |s| <==> forall i | 0 <= i < |s| :: s[i] as int <= 0xFFFF
    ensures Utf16Length(s) == 2 * |s| <==> forall i | 0 <= i < |s| :: s[i] as int > 0xFFFF
  {
    if s != [] {
      Utf16LengthExtremes(s[1..]);
      assert forall i | 1 <= i < |s| :: s[i] == s[1..][i - 1];
    }
  }

  /** Code units add up over concatenation. */
  lemma {:induction false} Utf16LengthAppend(a: string, b: string)
    ensures Utf16Length(a + b) == Utf16Length(a) + Utf16Length(b)
  {
    if a == [] {
      assert a + b == b;
    } else {
      assert (a + b)[1..] == a[1..] + b;
      Utf16LengthAppend(a[1..], b);
    }
  }

  /** The first UTF-16 code unit of a character: the character itself, or the high
      surrogate of its pair. */
  function FirstUnit(c: char): (u: int)
    ensures c as int <= 0xFFFF ==> u == c as int
    ensures c as int > 0xFFFF ==> 0xD800 <= u <= 0xDBFF
    ensures c as int > 0xFFFF ==> (u - 0xD800) * 0x400 <= c as int - 0x10000 < (u - 0xD800 + 1) * 0x400
  {
    if c as int <= 0xFFFF then c as int else 0xD800 + (c as int - 0x10000) / 0x400
  }

  /** .NET's `DateTimeKind`: whether a `DateTime` is UTC, local time, or unspecified. */
  datatype DateTimeKind = Unspecified | Utc | Local

  /** The ticks of `DateTime.MaxValue` (23:59:59.9999999 on 31 December 9999). */
  const MaxTicks := 3155378975999999999

  /** The tick counts a `DateTime` can hold: `MinValue` is 0, `MaxValue` is `MaxTicks`. */
  type Ticks = t: int | 0 <= t <= MaxTicks

  /** A .NET `DateTime`: a tick count (100 ns units since 0001-01-01) and its kind.
      Comparisons between `DateTime` values look at the ticks only, as .NET's do. */
  datatype DateTime = DateTime(ticks: Ticks, kind: DateTimeKind)

  /** `t` brought into the range of `DateTime`. */
  function ClampTicks(t: int): (r: Ticks)
    ensures 0 <= t <= MaxTicks ==> r == t
    ensures t < 0 ==> r == 0
    ensures t > MaxTicks ==> r == MaxTicks
  {
    if t < 0 then 0 else if t > MaxTicks then MaxTicks else t
  }

  /** .NET's `DateTime.ToUniversalTime`: a UTC value is returned unchanged; a local or
      unspecified value is taken as local time and shifted by the machine's UTC offset
      (`localOffset`, in ticks, local minus UTC). A result before `MinValue` or after
      `MaxValue` becomes that bound. */
  function ToUniversalTime(d: DateTime, localOffset: int): (r: DateTime)
    ensures r.kind == Utc
    ensures d.kind == Utc ==> r == d
    ensures d.kind != Utc && 0 <= d.ticks - localOffset <= MaxTicks ==> r.ticks + localOffset == d.ticks
    ensures d.kind != Utc && d.ticks - localOffset < 0 ==> r.ticks == 0
    ensures d.kind != Utc && d.ticks - localOffset > MaxTicks ==> r.ticks == MaxTicks
  {
    if d.kind == Utc then d else DateTime(ClampTicks(d.ticks - localOffset), Utc)
  }

  /** `default(DateTime)`, what an omitted date binds to, converted on a server east of
      UTC is `DateTime.MinValue` in UTC; `MaxValue` converted west of UTC is `MaxValue`. */
  lemma ConversionStaysInRange(localOffset: int)
    ensures localOffset > 0 ==> ToUniversalTime(DateTime(0, Unspecified), localOffset) == DateTime(0, Utc)
    ensures localOffset < 0 ==>
              ToUniversalTime(DateTime(MaxTicks, Unspecified), localOffset) == DateTime(MaxTicks, Utc)
  {
  }
}
