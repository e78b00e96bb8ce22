/** Port expressions such as `80,443,8000-8100`: which ports they denote, and their canonical form. */
module Ports {
  import opened Options
  import opened Decimal
  import opened Text
  import opened Ordered

  const MAX_PORT: nat := 65535

  datatype PortError = InvalidPort(text: string) | PortZero | InvalidRange(part: string) | NoPorts

  datatype Range = Range(first: nat, last: nat)

  function ParsePort(text: string): Result<nat, PortError> {
    match ParseUnsigned(text, MAX_PORT)
    case None => Err(InvalidPort(text))
    case Some(port) => if port == 0 then Err(PortZero) else Ok(port)
  }

  /** One item: a port, or a first and a last port around the first hyphen. */
  function ParseItem(part: string): Result<Range, PortError> {
    var dash := IndexOf(part, '-');
    if dash < |part| then
      match ParsePort(part[..dash])
      case Err(e) => Err(e)
      case Ok(first) =>
        (match ParsePort(part[dash + 1..])
         case Err(e) => Err(e)
         case Ok(last) => if first > last then Err(InvalidRange(part)) else Ok(Range(first, last)))
    else
      match ParsePort(part)
      case Err(e) => Err(e)
      case Ok(port) => Ok(Range(port, port))
  }

  function NonEmptyTrimmed(parts: seq<string>): seq<string> {
    if parts == [] then []
    else
      var (part, rest) := (Trim(parts[0]), NonEmptyTrimmed(parts[1..]));
      if part == [] then rest else [part] + rest
  }

  function Items(input: string): seq<string> {
    NonEmptyTrimmed(Split(input, ','))
  }

  predicate IsValid(items: seq<string>) {
    forall i :: 0 <= i < |items| ==> ParseItem(items[i]).Ok?
  }

  predicate InRange(r: Range, port: nat) {
    r.first <= port <= r.last
  }

  /** The item names the port, or a range around it. */
  predicate Covers(part: string, port: nat) {
    ParseItem(part).Ok? && InRange(ParseItem(part).value, port)
  }

  predicate Denotes(items: seq<string>, port: nat) {
    exists i :: 0 <= i < |items| && Covers(items[i], port)
  }

  function Span(r: Range): (ports: set<nat>)
    ensures forall p: nat :: p in ports <==> InRange(r, p)
  {
    set p: nat | p <= r.last && InRange(r, p)
  }

  /** The error of the first item that has one. */
  function FirstError(items: seq<string>): PortError
    requires !IsValid(items)
  {
    if ParseItem(items[0]).Err? then ParseItem(items[0]).error else FirstError(items[1..])
  }

  /** What an expression means: the ascending list of exactly the ports it denotes, or its first error. */
  ghost predicate Means(input: string, result: Result<seq<nat>, PortError>) {
    var items := Items(input);
    if !IsValid(items) then result == Err(FirstError(items))
    else if items == [] then result == Err(NoPorts)
    else result.Ok? && Ascending(result.value, NatLeq) && forall p: nat :: p in result.value <==> Denotes(items, p)
  }

  lemma ItemBounds(part: string)
    ensures ParseItem(part).Ok? ==> 1 <= ParseItem(part).value.first <= ParseItem(part).value.last <= MAX_PORT
  {
  }

  lemma {:induction false} ErrorStays(items: seq<string>, k: nat)
    requires k < |items| && IsValid(items[..k]) && ParseItem(items[k]).Err?
    ensures !IsValid(items) && FirstError(items) == ParseItem(items[k]).error
  {
    hide ParseItem;
    if k > 0 {
      assert items[..k][0] == items[0] && items[1..][k - 1] == items[k];
      assert items[1..][..k - 1] == items[..k][1..];
      ErrorStays(items[1..], k - 1);
      assert !IsValid(items) by {
        assert ParseItem(items[k]).Err?;
      }
    }
  }

  lemma DenotedArePorts(items: seq<string>)
    ensures forall p: nat :: Denotes(items, p) ==> 1 <= p <= MAX_PORT
    ensures IsValid(items) && items != [] ==> exists p: nat :: Denotes(items, p)
  {
    forall p: nat | Denotes(items, p)
      ensures 1 <= p <= MAX_PORT
    {
      var i :| 0 <= i < |items| && Covers(items[i], p);
      ItemBounds(items[i]);
    }
    if IsValid(items) && items != [] {
      ItemBounds(items[0]);
      var first: nat := ParseItem(items[0]).value.first;
      assert Covers(items[0], first) && Denotes(items, first);
    }
  }

  lemma ValidStep(items: seq<string>, k: nat)
    requires k < |items| && IsValid(items[..k]) && ParseItem(items[k]).Ok?
    ensures IsValid(items[..k + 1])
  {
    hide ParseItem;
    var (before, after) := (items[..k], items[..k + 1]);
    forall i | 0 <= i < |after|
      ensures ParseItem(after[i]).Ok?
    {
      assert after[i] == if i < k then before[i] else items[k];
    }
  }

  lemma CoversItsRange(item: string)
    requires ParseItem(item).Ok?
    ensures forall p: nat :: Covers(item, p) <==> InRange(ParseItem(item).value, p)
  {
    hide ParseItem;
  }

  method ParsePorts(input: string) returns (result: Result<seq<nat>, PortError>)
    ensures Means(input, result)
    ensures IsAnswer(input, result)
    ensures result.Ok? ==> result.value != [] && forall p :: p in result.value ==> 1 <= p <= MAX_PORT
  {
    var ports: set<nat> := {};
    var items := Items(input);
    for k := 0 to |items|
      invariant IsValid(items[..k])
      invariant forall p: nat :: p in ports <==> Denotes(items[..k], p)
    {
      hide *;
      match ParseItem(items[k]) {
        case Err(e) =>
          ErrorStays(items, k);
          MeansError(input);
          AnswerIs(input, Err(e));
          return Err(e);
        case Ok(range) =>
          DenotedStep(items, k);
          ValidStep(items, k);
          CoversItsRange(items[k]);
          ports := ports + Span(range);
      }
    }
    assert items[..|items|] == items;
    DenotedArePorts(items);
    hide Denotes, IsValid, Items, ParseItem, IsAnswer;
    if ports == {} {
      AnswerIs(input, Err(NoPorts));
      return Err(NoPorts);
    }
    NatOrder();
    hide TotalOrder, Ascending;
    var ascending := InOrder(ports, NatLeq);
    assert ascending != [] by {
      var p :| p in ports;
      assert p in ascending;
    }
    result := Ok(ascending);
    AnswerIs(input, result);
  }

  lemma MeansError(input: string)
    ensures !IsValid(Items(input)) ==> Means(input, Err(FirstError(Items(input))))
  {
  }

  lemma {:induction false} DenotedStep(items: seq<string>, k: nat)
    requires k < |items|
    ensures forall p: nat :: Denotes(items[..k + 1], p) <==> Denotes(items[..k], p) || Covers(items[k], p)
  {
    hide Covers;
    var (before, after) := (items[..k], items[..k + 1]);
    assert after == before + [items[k]];
    forall p: nat
      ensures Denotes(after, p) <==> Denotes(before, p) || Covers(items[k], p)
    {
      if Denotes(before, p) {
        var i :| 0 <= i < |before| && Covers(before[i], p);
        assert after[i] == before[i];
      }
      if Covers(items[k], p) {
        assert after[k] == items[k];
      }
    }
  }

  // ----- order and repetition are immaterial -----

  predicate SameItems(a: seq<string>, b: seq<string>) {
    (forall x :: x in a ==> x in b) && (forall x :: x in b ==> x in a)
  }

  lemma SameItemsDenoteTheSame(a: seq<string>, b: seq<string>)
    requires forall x :: x in a ==> x in b
    ensures IsValid(b) ==> IsValid(a)
    ensures forall p: nat :: Denotes(a, p) ==> Denotes(b, p)
  {
    hide ParseItem, Covers;
    if IsValid(b) {
      forall i | 0 <= i < |a|
        ensures ParseItem(a[i]).Ok?
      {
        assert a[i] in b;
      }
    }
    forall p: nat | Denotes(a, p)
      ensures Denotes(b, p)
    {
      var i :| 0 <= i < |a| && Covers(a[i], p);
      assert a[i] in b;
      var j :| 0 <= j < |b| && b[j] == a[i];
    }
  }

  /**
   Two expressions with the same items, in any order and any number of times, give the same list or are both
   refused.
   */
  lemma OrderIsImmaterial(a: string, b: string, x: Result<seq<nat>, PortError>, y: Result<seq<nat>, PortError>)
    requires SameItems(Items(a), Items(b)) && Means(a, x) && Means(b, y)
    ensures x.Ok? == y.Ok? && (x.Ok? ==> x == y)
  {
    SameItemsDenoteTheSame(Items(a), Items(b));
    SameItemsDenoteTheSame(Items(b), Items(a));
    hide Items, IsValid, Denotes, Ascending;
    assert Items(a) == [] <==> Items(b) == [] by {
      assert Items(a) != [] ==> Items(a)[0] in Items(a);
      assert Items(b) != [] ==> Items(b)[0] in Items(b);
    }
    if x.Ok? {
      NatOrder();
      AscendingIsUnique(x.value, y.value, NatLeq);
    }
  }

  // ----- printing a list and parsing it again -----

  function Print(ports: seq<nat>): string {
    if ports == [] then "" else if |ports| == 1 then Format(ports[0]) else Format(ports[0]) + "," + Print(ports[1..])
  }

  function Printed(ports: seq<nat>): (items: seq<string>)
    ensures |items| == |ports| && forall i :: 0 <= i < |ports| ==> items[i] == Format(ports[i])
  {
    if ports == [] then [] else [Format(ports[0])] + Printed(ports[1..])
  }

  lemma DigitsAreClean(n: nat)
    ensures ',' !in Format(n) && '-' !in Format(n) && Trim(Format(n)) == Format(n)
  {
    var s := Format(n);
    hide Format;
    assert IsDigit(s[0]) && IsDigit(s[|s| - 1]);
  }

  lemma {:induction false} PrintSplits(ports: seq<nat>)
    requires ports != []
    ensures Items(Print(ports)) == Printed(ports)
  {
    hide Format, Trim;
    DigitsAreClean(ports[0]);
    var first := Format(ports[0]);
    if |ports| == 1 {
      IndexOfAfter(first, ',', "");
      assert Split(first, ',') == [first];
      assert NonEmptyTrimmed([first]) == [first] + NonEmptyTrimmed([]);
      assert Printed(ports) == [first] + Printed([]);
    } else {
      var rest := Print(ports[1..]);
      IndexOfAfter(first, ',', rest);
      assert first + [','] + rest == Print(ports);
      assert Print(ports)[..|first|] == first && Print(ports)[|first| + 1..] == rest;
      assert Split(Print(ports), ',') == [first] + Split(rest, ',');
      assert ([first] + Split(rest, ','))[1..] == Split(rest, ',');
      PrintSplits(ports[1..]);
    }
  }

  lemma PrintedItem(port: nat)
    requires 1 <= port <= MAX_PORT
    ensures ParseItem(Format(port)) == Ok(Range(port, port))
  {
    DigitsAreClean(port);
    ParseOfFormat(port, MAX_PORT);
    hide Format, ParseUnsigned;
  }

  /** Any ascending list of ports, printed comma-separated, parses to itself; so does what any expression parses to. */
  lemma PrintedListIsCanonical(ports: seq<nat>, result: Result<seq<nat>, PortError>)
    requires ports != [] && Ascending(ports, NatLeq) && forall p :: p in ports ==> 1 <= p <= MAX_PORT
    requires Means(Print(ports), result)
    ensures result == Ok(ports)
  {
    PrintSplits(ports);
    PrintedMeans(ports);
    hide Print, Items, ParseItem, Denotes, IsValid, Ascending;
    NatOrder();
    AscendingIsUnique(result.value, ports, NatLeq);
  }

  lemma PrintedMeans(ports: seq<nat>)
    requires forall p :: p in ports ==> 1 <= p <= MAX_PORT
    ensures IsValid(Printed(ports)) && forall p: nat :: Denotes(Printed(ports), p) <==> p in ports
  {
    var items := Printed(ports);
    forall i | 0 <= i < |ports|
      ensures ParseItem(items[i]) == Ok(Range(ports[i], ports[i]))
    {
      assert ports[i] in ports;
      PrintedItem(ports[i]);
    }
    hide ParseItem, Printed;
    forall p: nat
      ensures Denotes(items, p) <==> p in ports
    {
      if p in ports {
        var i :| 0 <= i < |ports| && ports[i] == p;
        assert Covers(items[i], p);
      }
    }
  }

  // ----- what an expression says, character by character -----

  ghost predicate IsBlank(c: char) {
    c == ' ' || c == '\t' || c == '\n' || c == '\r' || c as int == 11 || c as int == 12
  }

  /** The text from `i` to `k` stands between two commas, or the ends. */
  ghost predicate IsPiece(input: string, i: int, k: int) {
    && 0 <= i <= k <= |input| && (forall j :: i <= j < k ==> input[j] != ',')
    && (i > 0 ==> input[i - 1] == ',') && (k < |input| ==> input[k] == ',')
  }

  /** `item` is the piece without the blanks around it. */
  ghost predicate IsTrimmed(piece: string, item: string) {
    exists i, k :: IsTrimmedAt(piece, i, k) && item == piece[i..k]
  }

  ghost predicate IsTrimmedAt(piece: string, i: int, k: int) {
    && 0 <= i <= k <= |piece|
    && (forall j :: 0 <= j < i ==> IsBlank(piece[j])) && (forall j :: k <= j < |piece| ==> IsBlank(piece[j]))
    && (i < k ==> !IsBlank(piece[i]) && !IsBlank(piece[k - 1]))
  }

  /** The text is a port number: digits, perhaps behind a plus sign, with a value from 1 to 65535. */
  ghost predicate SpellsPort(text: string, port: nat) {
    && 1 <= port <= 65535
    && (SpellsValue(text, port) || (text != [] && text[0] == '+' && SpellsValue(text[1..], port)))
  }

  ghost predicate SpellsValue(digits: string, n: nat) {
    digits != [] && (forall i :: 0 <= i < |digits| ==> '0' <= digits[i] <= '9') && Value(digits) == n
  }

  /** A port, or two in order around the first hyphen. */
  ghost predicate IsItem(item: string, first: nat, last: nat) {
    || ('-' !in item && SpellsPort(item, first) && first == last)
    || (first <= last && exists k ::
          IsFirstDash(item, k) && SpellsPort(item[..k], first) && SpellsPort(item[k + 1..], last))
  }

  ghost predicate IsFirstDash(item: string, k: int) {
    0 <= k < |item| && item[k] == '-' && forall j :: 0 <= j < k ==> item[j] != '-'
  }

  /** Why a text is not a port: its value is 0, or it is no number up to 65535. */
  ghost predicate IsPortError(text: string, e: PortError) {
    var zero := SpellsValue(text, 0) || (text != [] && text[0] == '+' && SpellsValue(text[1..], 0));
    e == (if zero then PortZero else InvalidPort(text)) && forall port: nat :: !SpellsPort(text, port)
  }

  /** Why an item is not one: its first port that is none, or a range that runs backwards. */
  ghost predicate IsItemError(item: string, e: PortError) {
    || ('-' !in item && IsPortError(item, e))
    || (exists k :: IsFirstDash(item, k) && IsRangeError(item, k, e))
  }

  ghost predicate IsRangeError(item: string, k: int, e: PortError)
    requires 0 <= k < |item|
  {
    || IsPortError(item[..k], e)
    || (exists first :: SpellsPort(item[..k], first) && IsPortError(item[k + 1..], e))
    || (e == InvalidRange(item) && exists first, last :: RunsBackwards(item, k, first, last))
  }

  ghost predicate RunsBackwards(item: string, k: int, first: nat, last: nat)
    requires 0 <= k < |item|
  {
    first > last && SpellsPort(item[..k], first) && SpellsPort(item[k + 1..], last)
  }

  /** An item that is written somewhere in the input. */
  ghost predicate Writes(input: string, item: string) {
    item != [] && exists i, k :: IsPiece(input, i, k) && IsTrimmed(input[i..k], item)
  }

  lemma SpaceIs(c: char)
    ensures IsBlank(c) <==> IsSpace(c)
  {
  }

  lemma SpellsPortIs(text: string, port: nat)
    ensures SpellsPort(text, port) <==> ParsePort(text) == Ok(port)
  {
    assert forall s: string :: (forall i :: 0 <= i < |s| ==> '0' <= s[i] <= '9') <==> AllDigits(s);
    if text != [] && text[0] == '+' {
      assert !IsDigit(text[0]);
    }
    hide Value;
  }

  lemma FirstDash(item: string)
    ensures
      var dash := IndexOf(item, '-');
      && (dash < |item| <==> '-' in item) && (dash < |item| ==> IsFirstDash(item, dash))
      && forall k :: IsFirstDash(item, k) ==> k == dash
  {
    var dash := IndexOf(item, '-');
    assert forall j :: 0 <= j < dash ==> item[..dash][j] == item[j] && item[..dash][j] in item[..dash];
  }

  lemma ItemIs(item: string, first: nat, last: nat)
    ensures IsItem(item, first, last) <==> ParseItem(item) == Ok(Range(first, last))
  {
    var dash := IndexOf(item, '-');
    FirstDash(item);
    if dash < |item| {
      SpellsPortIs(item[..dash], first);
      SpellsPortIs(item[dash + 1..], last);
    } else {
      assert item[..dash] == item;
      SpellsPortIs(item, first);
    }
    hide SpellsPort, ParsePort, IndexOf;
  }

  lemma {:induction false} TrimStartIs(s: string) returns (i: nat)
    ensures i <= |s| && TrimStart(s) == s[i..] && forall j :: 0 <= j < i ==> IsBlank(s[j])
    ensures i < |s| ==> !IsBlank(s[i])
  {
    i := 0;
    if s != [] {
      SpaceIs(s[0]);
      if IsSpace(s[0]) {
        var n := TrimStartIs(s[1..]);
        i := n + 1;
        assert forall j :: 0 < j < |s| ==> s[j] == s[1..][j - 1];
        assert s[1..][n..] == s[i..];
      }
    }
  }

  lemma {:induction false} TrimEndIs(s: string) returns (k: nat)
    ensures k <= |s| && TrimEnd(s) == s[..k] && forall j :: k <= j < |s| ==> IsBlank(s[j])
    ensures k > 0 ==> !IsBlank(s[k - 1])
  {
    k := |s|;
    if s != [] {
      SpaceIs(s[|s| - 1]);
      if IsSpace(s[|s| - 1]) {
        k := TrimEndIs(s[..|s| - 1]);
        assert s[..|s| - 1][..k] == s[..k];
      }
    }
  }

  lemma TrimIs(piece: string)
    ensures IsTrimmed(piece, Trim(piece))
  {
    var i := TrimStartIs(piece);
    var rest := TrimStart(piece);
    var k := TrimEndIs(rest);
    hide TrimStart, TrimEnd, IsBlank;
    if k > 0 {
      assert rest[k - 1] == piece[i + k - 1] && rest[0] == piece[i];
    }
    assert forall j :: i + k <= j < |piece| ==> piece[j] == rest[j - i];
    assert IsTrimmedAt(piece, i, i + k);
  }

  lemma TrimmedIsOne(piece: string, a: string, b: string)
    requires IsTrimmed(piece, a) && IsTrimmed(piece, b)
    ensures a == b
  {
    hide IsBlank;
    var i, k :| IsTrimmedAt(piece, i, k) && a == piece[i..k];
    var j, l :| IsTrimmedAt(piece, j, l) && b == piece[j..l];
    if i < k && j < l {
      assert i == j && k == l;
    }
  }

  /** The piece stands from `i` to `k`. */
  ghost predicate StandsAt(input: string, i: int, k: int, piece: string) {
    IsPiece(input, i, k) && piece == input[i..k]
  }

  /** The pieces of a split are the pieces between commas. */
  lemma {:induction false} SplitIs(s: string, piece: string)
    ensures piece in Split(s, ',') <==> exists i, k :: StandsAt(s, i, k, piece)
    decreases |s|
  {
    var n := IndexOf(s, ',');
    assert forall j :: 0 <= j < n ==> s[..n][j] == s[j] && s[..n][j] in s[..n];
    if n == |s| {
      OnePiece(s, piece);
    } else {
      var rest := s[n + 1..];
      SplitIs(rest, piece);
      FirstPiece(s, n);
      hide *;
      if i, k :| StandsAt(rest, i, k, piece) {
        PieceMovesIn(s, n, i, k, piece);
      }
      if i, k :| StandsAt(s, i, k, piece) {
        PieceMovesOut(s, n, i, k, piece);
      }
      SplitStep(s, n);
    }
  }

  lemma SplitStep(s: string, n: nat)
    requires n < |s| && IndexOf(s, ',') == n
    ensures Split(s, ',') == [s[..n]] + Split(s[n + 1..], ',')
  {
    hide IndexOf;
  }

  lemma OnePiece(s: string, piece: string)
    requires forall j :: 0 <= j < |s| ==> s[j] != ','
    requires Split(s, ',') == [s]
    ensures piece in Split(s, ',') <==> exists i, k :: StandsAt(s, i, k, piece)
  {
    hide Split, IndexOf;
    assert s[0..|s|] == s && StandsAt(s, 0, |s|, s);
    assert forall i, k :: StandsAt(s, i, k, piece) ==> i == 0 && k == |s|;
  }

  lemma FirstPiece(s: string, n: nat)
    requires n < |s| && s[n] == ',' && forall j :: 0 <= j < n ==> s[j] != ','
    ensures StandsAt(s, 0, n, s[..n])
  {
    assert s[0..n] == s[..n];
  }

  lemma PieceMovesIn(s: string, n: nat, i: int, k: int, piece: string)
    requires n < |s| && s[n] == ',' && StandsAt(s[n + 1..], i, k, piece)
    ensures StandsAt(s, n + 1 + i, n + 1 + k, piece)
  {
    var rest := s[n + 1..];
    assert forall j :: n + 1 + i <= j < n + 1 + k ==> s[j] == rest[j - n - 1];
  }

  lemma PieceMovesOut(s: string, n: nat, i: int, k: int, piece: string)
    requires n < |s| && s[n] == ',' && (forall j :: 0 <= j < n ==> s[j] != ',') && StandsAt(s, i, k, piece)
    ensures piece == s[..n] || StandsAt(s[n + 1..], i - n - 1, k - n - 1, piece)
  {
    if i == 0 {
      assert k == n;
    } else {
      assert i > n;
      var rest := s[n + 1..];
      assert forall j :: i - n - 1 <= j < k - n - 1 ==> rest[j] == s[j + n + 1];
    }
  }

  lemma {:induction false} NonEmptyTrimmedIs(parts: seq<string>, item: string)
    ensures item in NonEmptyTrimmed(parts) <==> item != [] && exists p :: p in parts && Trim(p) == item
  {
    hide Trim;
    if parts != [] {
      NonEmptyTrimmedIs(parts[1..], item);
      assert parts == [parts[0]] + parts[1..];
    }
  }

  lemma WritesIs(input: string, item: string)
    ensures Writes(input, item) <==> item in Items(input)
  {
    var parts := Split(input, ',');
    NonEmptyTrimmedIs(parts, item);
    hide Split, Trim, NonEmptyTrimmed, IsTrimmed;
    if Writes(input, item) {
      var i, k :| IsPiece(input, i, k) && IsTrimmed(input[i..k], item);
      SplitIs(input, input[i..k]);
      TrimIs(input[i..k]);
      TrimmedIsOne(input[i..k], item, Trim(input[i..k]));
      assert StandsAt(input, i, k, input[i..k]);
    }
    if item in Items(input) {
      var p :| p in parts && Trim(p) == item;
      SplitIs(input, p);
      TrimIs(p);
      var i, k :| StandsAt(input, i, k, p);
      assert IsTrimmed(input[i..k], item);
    }
  }

  /** The item says a port or a range. */
  ghost predicate IsGood(item: string) {
    exists first: nat, last: nat :: IsItem(item, first, last)
  }

  /** Some item of the input names the port, or a range around it. */
  ghost predicate Names(input: string, port: nat) {
    exists item, first: nat, last: nat :: Writes(input, item) && IsItem(item, first, last) && first <= port <= last
  }

  /** What the characters of the input say: the ports named, in order; or that an item is bad; or that there is none. */
  ghost predicate IsAnswer(input: string, result: Result<seq<nat>, PortError>) {
    && (result.Ok? <==> (exists item :: Writes(input, item)) && forall item :: Writes(input, item) ==> IsGood(item))
    && (result == Err(NoPorts) <==> forall item :: !Writes(input, item))
    && (result.Ok? ==>
          && (forall p: nat :: p in result.value <==> Names(input, p))
          && (forall i, j :: 0 <= i < j < |result.value| ==> result.value[i] < result.value[j]))
    && (result.Err? && result != Err(NoPorts) ==>
          exists item :: Writes(input, item) && IsItemError(item, result.error))
  }

  lemma GoodIs(item: string)
    ensures IsGood(item) <==> ParseItem(item).Ok?
  {
    hide IsItem, ParseItem;
    forall first: nat, last: nat
      ensures IsItem(item, first, last) <==> ParseItem(item) == Ok(Range(first, last))
    {
      ItemIs(item, first, last);
    }
    if ParseItem(item).Ok? {
      var r := ParseItem(item).value;
      assert IsItem(item, r.first, r.last);
    }
  }

  lemma NamesIs(input: string, port: nat)
    ensures Names(input, port) <==> Denotes(Items(input), port)
  {
    hide Writes, IsItem, Items, ParseItem;
    var items := Items(input);
    if Names(input, port) {
      var item, first: nat, last: nat :| Writes(input, item) && IsItem(item, first, last) && first <= port <= last;
      WritesIs(input, item);
      ItemIs(item, first, last);
      var i :| 0 <= i < |items| && items[i] == item;
      assert Covers(items[i], port);
    }
    if Denotes(items, port) {
      var i :| 0 <= i < |items| && Covers(items[i], port);
      var r := ParseItem(items[i]).value;
      WritesIs(input, items[i]);
      ItemIs(items[i], r.first, r.last);
    }
  }

  lemma PortErrorIs(text: string)
    ensures ParsePort(text).Err? ==> IsPortError(text, ParsePort(text).error)
  {
    forall port: nat
      ensures SpellsPort(text, port) <==> ParsePort(text) == Ok(port)
    {
      SpellsPortIs(text, port);
    }
    assert forall s: string :: (forall i :: 0 <= i < |s| ==> '0' <= s[i] <= '9') <==> AllDigits(s);
    if text != [] && text[0] == '+' {
      assert !IsDigit(text[0]);
    }
    hide Value, SpellsPort;
  }

  lemma RangeErrorIs(item: string, dash: nat)
    requires dash < |item| && IndexOf(item, '-') == dash
    ensures ParseItem(item).Err? ==> IsRangeError(item, dash, ParseItem(item).error)
  {
    var (a, b) := (ParsePort(item[..dash]), ParsePort(item[dash + 1..]));
    PortErrorIs(item[..dash]);
    PortErrorIs(item[dash + 1..]);
    hide SpellsPort, IsPortError, ParsePort, IndexOf;
    if a.Ok? {
      SpellsPortIs(item[..dash], a.value);
      if b.Ok? {
        SpellsPortIs(item[dash + 1..], b.value);
        assert a.value > b.value ==> RunsBackwards(item, dash, a.value, b.value);
      }
    }
  }

  lemma ItemErrorIs(item: string)
    ensures ParseItem(item).Err? ==> IsItemError(item, ParseItem(item).error)
  {
    var dash := IndexOf(item, '-');
    FirstDash(item);
    hide SpellsPort, IsPortError, ParsePort, IndexOf, IsRangeError, IsFirstDash;
    if dash < |item| {
      RangeErrorIs(item, dash);
    } else {
      PortErrorIs(item);
    }
  }

  /** The error of a list is not `NoPorts`, and it is that of an item after good ones. */
  lemma {:induction false} FirstErrorIs(items: seq<string>) returns (item: string)
    requires !IsValid(items)
    ensures FirstError(items) != NoPorts && item in items
    ensures ParseItem(item) == Err(FirstError(items))
  {
    if ParseItem(items[0]).Ok? {
      assert forall i :: 0 < i < |items| ==> items[i] == items[1..][i - 1];
      item := FirstErrorIs(items[1..]);
    } else {
      item := items[0];
    }
  }

  lemma ValidIs(input: string)
    ensures IsValid(Items(input)) <==> forall item :: Writes(input, item) ==> IsGood(item)
    ensures Items(input) == [] <==> forall item :: !Writes(input, item)
  {
    hide Writes, IsGood, Items, ParseItem;
    var items := Items(input);
    forall item
      ensures Writes(input, item) <==> item in items
      ensures IsGood(item) <==> ParseItem(item).Ok?
    {
      WritesIs(input, item);
      GoodIs(item);
    }
    if items != [] {
      assert Writes(input, items[0]);
    }
    if forall item :: Writes(input, item) ==> IsGood(item) {
      forall i | 0 <= i < |items|
        ensures ParseItem(items[i]).Ok?
      {
        assert Writes(input, items[i]);
      }
    }
  }

  lemma AnswerIs(input: string, result: Result<seq<nat>, PortError>)
    requires Means(input, result)
    ensures IsAnswer(input, result)
  {
    var items := Items(input);
    ValidIs(input);
    if !IsValid(items) {
      var item := FirstErrorIs(items);
      WritesIs(input, item);
      ItemErrorIs(item);
    }
    forall p: nat
      ensures Names(input, p) <==> Denotes(items, p)
    {
      NamesIs(input, p);
    }
    assert result.Ok? ==>
        forall i, j :: 0 <= i < j < |result.value| ==> result.value[i] < result.value[j] by {
      if result.Ok? {
        AscendingNats(result.value);
      }
    }
    hide Names, Denotes, IsValid, Items, Writes, IsGood, Ascending, FirstError, ParseItem, IsItemError;
  }

  lemma AscendingNats(s: seq<nat>)
    requires Ascending(s, NatLeq)
    ensures forall i, j :: 0 <= i < j < |s| ==> s[i] < s[j]
  {
  }
}
