/**
 * Cursor pagination: an id spelled in decimal and carried as base64url
 * (section 5 of RFC 4648, without padding), and the walk a client makes by
 * handing each cursor back.
 */
module Cursor {
  import opened Prelude

  const DEFAULT_PAGE_SIZE: int := 25
  const MAX_PAGE_SIZE: int := 100
  const MAX_SAFE_INTEGER: int := 9007199254740991

  type Byte = x: int | 0 <= x < 256
  type Sextet = x: int | 0 <= x < 64

  // ---------------------------------------------------------------- base64url

  function CharOf(v: Sextet): char {
    if v < 26 then ('A' as int + v) as char
    else if v < 52 then ('a' as int + (v - 26)) as char
    else if v < 62 then ('0' as int + (v - 52)) as char
    else if v == 62 then '-' else '_'
  }

  /** Reading accepts the plain base64 spellings of 62 and 63 as well. */
  function ValueOf(c: char): Option<Sextet> {
    if 'A' <= c <= 'Z' then Some(c as int - 'A' as int)
    else if 'a' <= c <= 'z' then Some(26 + (c as int - 'a' as int))
    else if '0' <= c <= '9' then Some(52 + (c as int - '0' as int))
    else if c == '-' || c == '+' then Some(62)
    else if c == '_' || c == '/' then Some(63)
    else None
  }

  function Sextets(bytes: seq<Byte>): seq<Sextet> {
    if |bytes| == 0 then []
    else if |bytes| == 1 then [bytes[0] / 4, bytes[0] % 4 * 16]
    else if |bytes| == 2 then [bytes[0] / 4, bytes[0] % 4 * 16 + bytes[1] / 16, bytes[1] % 16 * 4]
    else [bytes[0] / 4, bytes[0] % 4 * 16 + bytes[1] / 16, bytes[1] % 16 * 4 + bytes[2] / 64, bytes[2] % 64] + Sextets(bytes[3..])
  }

  function Byte0(a: Sextet, b: Sextet): Byte {
    a * 4 + b / 16
  }

  function Byte1(b: Sextet, c: Sextet): Byte {
    b % 16 * 16 + c / 4
  }

  function Byte2(c: Sextet, d: Sextet): Byte {
    c % 4 * 64 + d
  }

  /** Whole bytes only: bits left over at the end are dropped. */
  function Octets(values: seq<Sextet>): seq<Byte> {
    if |values| < 2 then []
    else if |values| == 2 then [Byte0(values[0], values[1])]
    else if |values| == 3 then [Byte0(values[0], values[1]), Byte1(values[1], values[2])]
    else [Byte0(values[0], values[1]), Byte1(values[1], values[2]), Byte2(values[2], values[3])] + Octets(values[4..])
  }

  function Spelled(values: seq<Sextet>): string {
    seq(|values|, i requires 0 <= i < |values| => CharOf(values[i]))
  }

  /** Characters outside the alphabet are skipped. */
  function Read(text: string): seq<Sextet> {
    if text == "" then []
    else if ValueOf(text[0]).Some? then [ValueOf(text[0]).value] + Read(text[1..])
    else Read(text[1..])
  }

  function Encode(bytes: seq<Byte>): string {
    Spelled(Sextets(bytes))
  }

  function Decode(text: string): seq<Byte> {
    Octets(Read(text))
  }

  lemma {:induction false} LetterReadsBack(v: Sextet)
    ensures ValueOf(CharOf(v)) == Some(v)
  {
  }

  lemma {:induction false} ReadSpelled(values: seq<Sextet>)
    ensures Read(Spelled(values)) == values
  {
    if values != [] {
      LetterReadsBack(values[0]);
      hide ValueOf, CharOf;
      assert Spelled(values)[1..] == Spelled(values[1..]);
      ReadSpelled(values[1..]);
    }
  }

  lemma {:induction false} Regroup(a: Byte, b: Byte, c: Byte)
    ensures Byte0(a / 4, a % 4 * 16 + b / 16) == a
    ensures Byte1(a % 4 * 16 + b / 16, b % 16 * 4 + c / 64) == b
    ensures Byte2(b % 16 * 4 + c / 64, c % 64) == c
  {
  }

  lemma {:induction false} OctetsOfSextets(bytes: seq<Byte>)
    ensures Octets(Sextets(bytes)) == bytes
    decreases |bytes|
  {
    hide Byte0, Byte1, Byte2;
    if |bytes| == 1 {
      Regroup(bytes[0], 0, 0);
    } else if |bytes| == 2 {
      Regroup(bytes[0], bytes[1], 0);
    } else if |bytes| > 2 {
      Regroup(bytes[0], bytes[1], bytes[2]);
      OctetsOfSextets(bytes[3..]);
      assert Sextets(bytes)[4..] == Sextets(bytes[3..]);
      assert bytes == bytes[..3] + bytes[3..];
    }
  }

  /** Any bytes survive the trip, in four characters per three bytes and no padding. */
  lemma {:induction false} DecodeOfEncode(bytes: seq<Byte>)
    ensures Decode(Encode(bytes)) == bytes
    ensures |Encode(bytes)| == (|bytes| * 4 + 2) / 3
  {
    ReadSpelled(Sextets(bytes));
    OctetsOfSextets(bytes);
    SextetCount(bytes);
  }

  lemma {:induction false} SextetCount(bytes: seq<Byte>)
    ensures |Sextets(bytes)| == (|bytes| * 4 + 2) / 3
    decreases |bytes|
  {
    if |bytes| > 2 {
      SextetCount(bytes[3..]);
    }
  }

  // ---------------------------------------------------------------- decimal digits

  predicate IsDigit(b: Byte) {
    '0' as int <= b <= '9' as int
  }

  function Digits(n: nat): seq<Byte> {
    if n < 10 then ['0' as int + n] else Digits(n / 10) + ['0' as int + n % 10]
  }

  function Value(digits: seq<Byte>): int {
    if digits == [] then 0 else Value(digits[..|digits| - 1]) * 10 + (digits[|digits| - 1] - '0' as int)
  }

  lemma {:induction false} ValueOfDigits(n: nat)
    ensures Value(Digits(n)) == n && Digits(n) != [] && forall i :: 0 <= i < |Digits(n)| ==> IsDigit(Digits(n)[i])
  {
    if n >= 10 {
      ValueOfDigits(n / 10);
      assert Digits(n)[..|Digits(n)| - 1] == Digits(n / 10);
    } else {
      assert Digits(n)[..0] == [];
    }
  }

  // ---------------------------------------------------------------- cursors

  const PREFIX: seq<Byte> := ['i' as int, 'd' as int, ':' as int]

  function EncodeCursor(id: nat): string {
    Encode(PREFIX + Digits(id))
  }

  /** Anything that is not `id:` and digits, or names no positive safe integer, means "from the beginning". */
  function DecodeCursor(cursor: Option<string>): (id: Option<nat>)
    ensures id.Some? ==> 1 <= id.value <= 9007199254740991
  {
    if cursor.None? || cursor.value == "" then None
    else
      var decoded := Decode(cursor.value);
      if |decoded| <= 3 || decoded[..3] != PREFIX || exists i :: 3 <= i < |decoded| && !IsDigit(decoded[i]) then None
      else
        var id := Value(decoded[3..]);
        if 0 < id <= MAX_SAFE_INTEGER then Some(id) else None
  }

  /** Every id a table can hand out comes back; zero and anything past the safe range do not. */
  lemma {:induction false} DecodeCursorOfEncodeCursor(id: nat)
    ensures DecodeCursor(Some(EncodeCursor(id))) == if 1 <= id <= 9007199254740991 then Some(id) else None
  {
    var bytes := PREFIX + Digits(id);
    DecodeOfEncode(bytes);
    ValueOfDigits(id);
    assert bytes[..3] == PREFIX && bytes[3..] == Digits(id);
  }

  lemma {:induction false} CursorsAreDistinct(a: nat, b: nat)
    requires EncodeCursor(a) == EncodeCursor(b)
    ensures a == b
  {
    DecodeOfEncode(PREFIX + Digits(a));
    DecodeOfEncode(PREFIX + Digits(b));
    assert (PREFIX + Digits(a))[3..] == Digits(a) && (PREFIX + Digits(b))[3..] == Digits(b);
    ValueOfDigits(a);
    ValueOfDigits(b);
  }

  function Zeros(n: nat): seq<Byte> {
    seq(n, i => '0' as int)
  }

  lemma {:induction false} LeadingZeros(digits: seq<Byte>) returns (zeros: nat)
    requires forall i :: 0 <= i < |digits| ==> IsDigit(digits[i])
    ensures Value(digits) >= 0
    ensures digits == Zeros(zeros) + if Value(digits) == 0 then [] else Digits(Value(digits))
  {
    if digits == [] {
      zeros := 0;
    } else {
      var (front, last) := (digits[..|digits| - 1], digits[|digits| - 1]);
      assert digits == front + [last];
      zeros := LeadingZeros(front);
      if Value(front) == 0 && last == '0' as int {
        assert Zeros(zeros) + [last] == Zeros(zeros + 1);
        zeros := zeros + 1;
      }
    }
  }

  lemma {:induction false} DecodedCursor(text: string, digits: seq<Byte>)
    requires Decode(text) == PREFIX + digits
    requires digits != [] && forall i :: 0 <= i < |digits| ==> IsDigit(digits[i])
    ensures DecodeCursor(Some(text)) == if 0 < Value(digits) <= MAX_SAFE_INTEGER then Some(Value(digits)) else None
  {
    hide Value;
    var decoded := Decode(text);
    assert text != "";
    assert decoded[..3] == PREFIX && decoded[3..] == digits;
    assert forall i :: 3 <= i < |decoded| ==> decoded[i] == digits[i - 3];
  }

  /**
   * A cursor that is accepted carries the prefix and the id it is read as, spelled
   * as ours are but for leading zeros; every other text means "from the beginning".
   */
  lemma {:induction false} AcceptedCursorsAreOurs(text: string, id: nat)
    ensures DecodeCursor(Some(text)) == Some(id)
       <==> 1 <= id <= 9007199254740991 && exists zeros :: Decode(text) == PREFIX + Zeros(zeros) + Digits(id)
  {
    hide Decode, Digits, Zeros, Value;
    var decoded := Decode(text);
    if DecodeCursor(Some(text)) == Some(id) {
      var zeros := LeadingZeros(decoded[3..]);
      assert decoded == PREFIX + Zeros(zeros) + Digits(id);
    }
    if zeros :| decoded == PREFIX + Zeros(zeros) + Digits(id) {
      PaddedDigits(zeros, id);
      assert decoded == PREFIX + (Zeros(zeros) + Digits(id));
      DecodedCursor(text, Zeros(zeros) + Digits(id));
    }
  }

  lemma {:induction false} PaddedDigits(zeros: nat, id: nat)
    ensures Value(Zeros(zeros) + Digits(id)) == id && Digits(id) != []
    ensures forall i :: 0 <= i < |Zeros(zeros) + Digits(id)| ==> IsDigit((Zeros(zeros) + Digits(id))[i])
  {
    ValueOfDigits(id);
    ValueOfPadded(zeros, Digits(id));
  }

  lemma {:induction false} ValueOfPadded(zeros: nat, digits: seq<Byte>)
    ensures Value(Zeros(zeros) + digits) == Value(digits)
    decreases zeros + |digits|
  {
    if digits != [] {
      var last := |digits| - 1;
      assert (Zeros(zeros) + digits)[..zeros + last] == Zeros(zeros) + digits[..last];
      ValueOfPadded(zeros, digits[..last]);
    } else if zeros > 0 {
      assert Zeros(zeros) + digits == Zeros(zeros - 1) + [] + ['0' as int];
      assert (Zeros(zeros) + digits)[..zeros - 1] == Zeros(zeros - 1) + digits;
      ValueOfPadded(zeros - 1, digits);
    }
  }

  function Plain(text: string): string {
    seq(|text|, i requires 0 <= i < |text| => if text[i] == '-' then '+' else if text[i] == '_' then '/' else text[i])
  }

  lemma {:induction false} PlainReadsAlike(text: string)
    ensures Read(Plain(text)) == Read(text)
  {
    if text != "" {
      assert Plain(text)[1..] == Plain(text[1..]);
      PlainReadsAlike(text[1..]);
    }
  }

  lemma {:induction false} ForeignLettersAreSkipped(before: string, c: char, rest: string)
    requires ValueOf(c).None?
    ensures Read(before + [c] + rest) == Read(before + rest)
  {
    if before == "" {
      assert ("" + [c] + rest)[1..] == rest && "" + rest == rest;
    } else {
      assert (before + [c] + rest)[1..] == before[1..] + [c] + rest && (before + rest)[1..] == before[1..] + rest;
      ForeignLettersAreSkipped(before[1..], c, rest);
    }
  }

  /** Reading is forgiving: the plain base64 letters, padding and stray characters make no difference. */
  lemma {:induction false} ReadingIsForgiving(bytes: seq<Byte>, before: string, c: char, rest: string)
    requires before + rest == Encode(bytes)
    requires c == ' ' || c == '.' || (c == '=' && rest == "")
    ensures Decode(before + [c] + rest) == bytes && Decode(Plain(Encode(bytes))) == bytes
  {
    hide Encode, Octets;
    DecodeOfEncode(bytes);
    ForeignLettersAreSkipped(before, c, rest);
    PlainReadsAlike(Encode(bytes));
  }

  const FOOBAR: seq<Byte> := ['f' as int, 'o' as int, 'o' as int, 'b' as int, 'a' as int, 'r' as int]

  lemma {:induction false} SextetsOfFoobar()
    ensures Sextets(FOOBAR) == [25, 38, 61, 47, 24, 38, 5, 50]
  {
    assert FOOBAR[3..] == ['b' as int, 'a' as int, 'r' as int] && FOOBAR[3..][3..] == [];
    assert Sextets(FOOBAR[3..]) == [24, 38, 5, 50] + Sextets(FOOBAR[3..][3..]);
  }

  lemma {:induction false} SextetsOfFirst()
    ensures Sextets(PREFIX + Digits(1)) == [26, 22, 16, 58, 12, 16]
  {
    var first := PREFIX + Digits(1);
    assert first == ['i' as int, 'd' as int, ':' as int, '1' as int] && first[3..] == ['1' as int];
    assert Sextets(first) == [26, 22, 16, 58] + Sextets(first[3..]);
  }

  /** Spellings fixed by the standard (section 10 of RFC 4648) and by the prefix. */
  lemma {:induction false} KnownSpellings()
    ensures Encode(FOOBAR) == "Zm9vYmFy" && EncodeCursor(1) == "aWQ6MQ"
  {
    hide Sextets;
    SextetsOfFoobar();
    SextetsOfFirst();
  }

  /** The last two letters are the ones that are safe in an address. */
  lemma {:induction false} SafeLetters()
    ensures Encode([251, 255]) == "-_8" && Encode([]) == ""
  {
  }

  // ---------------------------------------------------------------- pages

  /** What `Number(value)` can be. */
  datatype Requested = NotANumber | Infinite | Finite(value: real)

  function PageSize(requested: Requested): (size: int)
    ensures 1 <= size <= 100
    ensures !requested.Finite? || requested.value < 1.0 ==> size == 25
    ensures requested.Finite? && requested.value > 100.0 ==> size == 100
    ensures requested.Finite? && 1.0 <= requested.value <= 100.0 ==> size as real <= requested.value < size as real + 1.0
  {
    if !requested.Finite? || requested.value < 1.0 then DEFAULT_PAGE_SIZE
    else Min(requested.value.Floor, MAX_PAGE_SIZE)
  }

  datatype Page = Page(rows: seq<nat>, next: Option<string>)

  function ToCursorPage(rows: seq<nat>, limit: nat): Page
    requires limit > 0
  {
    if |rows| <= limit then Page(rows, None) else Page(rows[..limit], Some(EncodeCursor(rows[limit - 1])))
  }

  /** `order by id asc limit n` over the ids a table holds. */
  function FirstRows(ids: set<nat>, n: nat): seq<nat> {
    if n == 0 || ids == {} then [] else
      var m := Least(ids);
      [m] + FirstRows(ids - {m}, n - 1)
  }

  function Past(ids: set<nat>, after: Option<nat>): set<nat> {
    set x | x in ids && (after.None? || x > after.value)
  }

  function Fetch(ids: set<nat>, cursor: Option<string>, limit: nat): Page
    requires limit > 0
  {
    ToCursorPage(FirstRows(Past(ids, DecodeCursor(cursor)), limit + 1), limit)
  }

  predicate Ascending(s: seq<nat>) {
    forall i, j :: 0 <= i < j < |s| ==> s[i] < s[j]
  }

  lemma {:induction false} FirstRowsAscend(ids: set<nat>, n: nat)
    ensures Ascending(FirstRows(ids, n)) && |FirstRows(ids, n)| == Min(n, |ids|)
    ensures forall i :: 0 <= i < |FirstRows(ids, n)| ==> FirstRows(ids, n)[i] in ids
  {
    if n != 0 && ids != {} {
      LeastIsLeast(ids);
      FirstRowsAscend(ids - {Least(ids)}, n - 1);
    }
  }

  /** Up to the last row read, nothing is passed over; and a short read passes over nothing at all. */
  lemma {:induction false} FirstRowsCover(ids: set<nat>, n: nat, x: nat)
    requires x in ids
    requires |FirstRows(ids, n)| < n || (n > 0 && x <= FirstRows(ids, n)[n - 1])
    ensures x in FirstRows(ids, n)
  {
    LeastIsLeast(ids);
    FirstRowsAscend(ids, n);
    var m := Least(ids);
    if x != m && n > 1 {
      assert FirstRows(ids, n)[1..] == FirstRows(ids - {m}, n - 1);
      FirstRowsCover(ids - {m}, n - 1, x);
    }
  }

  lemma {:induction false} FirstRowsPrefix(ids: set<nat>, n: nat)
    requires |FirstRows(ids, n + 1)| > n
    ensures FirstRows(ids, n + 1)[..n] == FirstRows(ids, n)
  {
    if n != 0 {
      var m := Least(ids);
      assert FirstRows(ids, n + 1)[1..] == FirstRows(ids - {m}, n);
      FirstRowsPrefix(ids - {m}, n - 1);
    }
  }

  // ---------------------------------------------------------------- the walk

  /** What the table holds when each page is read; ids are handed out from one up and stay safe integers. */
  ghost predicate Bounded(table: nat -> set<nat>, bound: nat) {
    bound <= MAX_SAFE_INTEGER && forall page: nat, x: nat :: x in table(page) ==> 1 <= x <= bound
  }

  function After(cursor: Option<string>): nat {
    var id := DecodeCursor(cursor);
    if id.Some? then id.value else 0
  }

  lemma {:induction false} FetchAdvances(ids: set<nat>, cursor: Option<string>, limit: nat, bound: nat)
    requires limit > 0 && bound <= MAX_SAFE_INTEGER && forall x :: x in ids ==> 1 <= x <= bound
    ensures var page := Fetch(ids, cursor, limit);
            && Ascending(page.rows) && |page.rows| <= limit
            && (forall i :: 0 <= i < |page.rows| ==> page.rows[i] in ids && After(cursor) < page.rows[i])
            && (page.next.Some? ==>
                  |page.rows| == limit && After(page.next) == page.rows[limit - 1] && After(cursor) + limit <= After(page.next) <= bound)
  {
    hide EncodeCursor, FirstRows;
    var left := Past(ids, DecodeCursor(cursor));
    FirstRowsAscend(left, limit + 1);
    var rows := FirstRows(left, limit + 1);
    if |rows| > limit {
      DecodeCursorOfEncodeCursor(rows[limit - 1]);
      AscendingGrows(rows, After(cursor), limit - 1);
    }
  }

  lemma {:induction false} AscendingGrows(rows: seq<nat>, after: nat, i: nat)
    requires Ascending(rows) && i < |rows| && after < rows[0]
    ensures after + i + 1 <= rows[i]
  {
    if i > 0 {
      AscendingGrows(rows, after, i - 1);
    }
  }

  lemma {:induction false} FetchCovers(ids: set<nat>, cursor: Option<string>, limit: nat, x: nat)
    requires limit > 0 && x in ids && 1 <= x && After(cursor) < x
    requires var page := Fetch(ids, cursor, limit); page.next.None? || x <= page.rows[limit - 1]
    ensures x in Fetch(ids, cursor, limit).rows
  {
    var left := Past(ids, DecodeCursor(cursor));
    var rows := FirstRows(left, limit + 1);
    assert x in left;
    if |rows| <= limit {
      FirstRowsCover(left, limit + 1, x);
    } else {
      FirstRowsPrefix(left, limit);
      FirstRowsCover(left, limit, x);
    }
  }

  datatype Sync = Sync(rows: seq<nat>, pages: nat)

  /** Page after page, from what the table holds at each, until a page comes without a cursor. */
  ghost function Walk(table: nat -> set<nat>, page: nat, cursor: Option<string>, limit: nat, bound: nat): Sync
    requires limit > 0 && Bounded(table, bound)
    decreases bound - After(cursor)
  {
    var fetched := Fetch(table(page), cursor, limit);
    FetchAdvances(table(page), cursor, limit, bound);
    if fetched.next.None? then Sync(fetched.rows, 1) else
      var rest := Walk(table, page + 1, fetched.next, limit, bound);
      Sync(fetched.rows + rest.rows, rest.pages + 1)
  }

  lemma {:induction false} WalkFetch(table: nat -> set<nat>, page: nat, cursor: Option<string>, limit: nat, bound: nat)
    requires limit > 0 && Bounded(table, bound)
    ensures var fetched := Fetch(table(page), cursor, limit);
            && Ascending(fetched.rows) && |fetched.rows| <= limit
            && (forall i :: 0 <= i < |fetched.rows| ==> After(cursor) < fetched.rows[i] <= bound)
            && (fetched.next.Some? ==>
                  |fetched.rows| == limit && After(fetched.next) == fetched.rows[limit - 1] && After(cursor) + limit <= After(fetched.next) <= bound)
  {
    hide Fetch, After, Ascending;
    FetchAdvances(table(page), cursor, limit, bound);
  }

  lemma {:induction false} AscendingJoin(a: seq<nat>, b: seq<nat>)
    requires Ascending(a) && Ascending(b) && (a != [] ==> forall i :: 0 <= i < |b| ==> a[|a| - 1] < b[i])
    ensures Ascending(a + b)
  {
  }

  /** No row is seen twice or out of order, and none outside the cursor and the bound. */
  lemma {:induction false} WalkSeesRowsOnceInOrder(table: nat -> set<nat>, page: nat, cursor: Option<string>, limit: nat, bound: nat)
    requires limit > 0 && Bounded(table, bound)
    ensures var sync := Walk(table, page, cursor, limit, bound);
            Ascending(sync.rows) && forall i :: 0 <= i < |sync.rows| ==> After(cursor) < sync.rows[i] <= bound
    decreases bound - After(cursor)
  {
    hide Fetch, After, Ascending, Bounded;
    var fetched := Fetch(table(page), cursor, limit);
    WalkFetch(table, page, cursor, limit, bound);
    if fetched.next.Some? {
      WalkSeesRowsOnceInOrder(table, page + 1, fetched.next, limit, bound);
      AscendingJoin(fetched.rows, Walk(table, page + 1, fetched.next, limit, bound).rows);
    }
  }

  lemma {:induction false} OneMorePage(pages: int, limit: nat)
    ensures (pages + 1) * limit == pages * limit + limit
  {
  }

  /** The walk ends: every page but the last is full, and each full page passes `limit` more ids. */
  lemma {:induction false} WalkEnds(table: nat -> set<nat>, page: nat, cursor: Option<string>, limit: nat, bound: nat)
    requires limit > 0 && Bounded(table, bound)
    ensures var sync := Walk(table, page, cursor, limit, bound);
            && sync.pages >= 1
            && (sync.pages - 1) * limit <= |sync.rows|
            && (sync.pages - 1) * limit <= Max(0, bound - After(cursor))
    decreases bound - After(cursor)
  {
    hide Fetch, After, Ascending, Bounded;
    var fetched := Fetch(table(page), cursor, limit);
    WalkFetch(table, page, cursor, limit, bound);
    if fetched.next.Some? {
      WalkEnds(table, page + 1, fetched.next, limit, bound);
      OneMorePage(Walk(table, page + 1, fetched.next, limit, bound).pages - 1, limit);
    }
  }

  lemma {:induction false} WalkInventsNothing(table: nat -> set<nat>, page: nat, cursor: Option<string>, limit: nat, bound: nat, x: nat)
    requires limit > 0 && Bounded(table, bound) && x in Walk(table, page, cursor, limit, bound).rows
    ensures exists p: nat :: page <= p && x in table(p)
    decreases bound - After(cursor)
  {
    var fetched := Fetch(table(page), cursor, limit);
    FetchAdvances(table(page), cursor, limit, bound);
    if x !in fetched.rows {
      WalkInventsNothing(table, page + 1, fetched.next, limit, bound, x);
    }
  }

  /** A row that is there throughout is never missed, whatever is inserted or deleted between pages. */
  lemma {:induction false} WalkMissesNothing(table: nat -> set<nat>, page: nat, cursor: Option<string>, limit: nat, bound: nat, x: nat)
    requires limit > 0 && Bounded(table, bound)
    requires After(cursor) < x && forall p: nat :: page <= p ==> x in table(p)
    ensures x in Walk(table, page, cursor, limit, bound).rows
    decreases bound - After(cursor)
  {
    hide Fetch, After, Ascending;
    var fetched := Fetch(table(page), cursor, limit);
    WalkFetch(table, page, cursor, limit, bound);
    if fetched.next.None? || x <= After(fetched.next) {
      FetchCovers(table(page), cursor, limit, x);
    } else {
      WalkMissesNothing(table, page + 1, fetched.next, limit, bound, x);
    }
  }
}
