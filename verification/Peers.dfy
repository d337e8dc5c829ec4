/** The cluster's members as an operator lists them, "<id>@<host:port>" each (pkg/cluster/peer.go). Their ids are the
    distinct acceptors that the quorums are counted over. */
module Peers {
  import opened Wrappers
  import opened Quorums

  datatype Peer = Peer(id: int, addr: string)

  datatype Error =
    | NoSeparator(spec: string)
    | InvalidId(spec: string)
    | NegativeId(spec: string)
    | EmptyAddress(spec: string)
    | OwnId(spec: string)
    | DuplicateId(spec: string, previous: string)

  datatype Result<T> = Ok(value: T) | Err(error: Error)

  // ---- text ----

  /** The characters TrimSpace removes. */
  predicate IsSpace(c: char) {
    var n := c as int;
    || 9 <= n <= 13 || n == 32 || n == 0x85 || n == 0xA0 || n == 0x1680
    || 0x2000 <= n <= 0x200A || n == 0x2028 || n == 0x2029 || n == 0x202F || n == 0x205F || n == 0x3000
  }

  predicate Blank(s: string) {
    forall i | 0 <= i < |s| :: IsSpace(s[i])
  }

  /** No space at either end. */
  predicate Tight(s: string) {
    s != "" ==> !IsSpace(s[0]) && !IsSpace(s[|s| - 1])
  }

  function TrimLeft(s: string): string {
    if s != "" && IsSpace(s[0]) then TrimLeft(s[1..]) else s
  }

  function TrimRight(s: string): string {
    if s != "" && IsSpace(s[|s| - 1]) then TrimRight(s[..|s| - 1]) else s
  }

  function TrimSpace(s: string): string {
    TrimRight(TrimLeft(s))
  }

  /** s is t between blanks. */
  ghost predicate Padded(s: string, t: string) {
    exists before, after :: s == before + t + after && Blank(before) && Blank(after)
  }

  lemma {:induction false} TrimLeftPadding(s: string) returns (before: string)
    ensures s == before + TrimLeft(s) && Blank(before)
    ensures TrimLeft(s) == "" || !IsSpace(TrimLeft(s)[0])
  {
    before := "";
    if s != "" && IsSpace(s[0]) {
      var rest := TrimLeftPadding(s[1..]);
      before := [s[0]] + rest;
    }
  }

  lemma {:induction false} TrimRightPadding(s: string) returns (after: string)
    ensures s == TrimRight(s) + after && Blank(after)
    ensures TrimRight(s) == "" || !IsSpace(TrimRight(s)[|TrimRight(s)| - 1])
  {
    after := "";
    if s != "" && IsSpace(s[|s| - 1]) {
      var rest := TrimRightPadding(s[..|s| - 1]);
      after := rest + [s[|s| - 1]];
    }
  }

  lemma {:induction false} TrimLeftDrops(before: string, s: string)
    requires Blank(before) && (s == "" || !IsSpace(s[0]))
    ensures TrimLeft(before + s) == s
    decreases |before|
  {
    if before == "" {
      assert before + s == s;
    } else {
      assert (before + s)[1..] == before[1..] + s;
      TrimLeftDrops(before[1..], s);
    }
  }

  lemma {:induction false} TrimRightDrops(s: string, after: string)
    requires Blank(after) && (s == "" || !IsSpace(s[|s| - 1]))
    ensures TrimRight(s + after) == s
    decreases |after|
  {
    if after == "" {
      assert s + after == s;
    } else {
      var n := |after| - 1;
      assert (s + after)[..|s + after| - 1] == s + after[..n];
      TrimRightDrops(s, after[..n]);
    }
  }

  lemma TrimmedIsPadded(s: string)
    ensures Tight(TrimSpace(s)) && Padded(s, TrimSpace(s))
  {
    var before := TrimLeftPadding(s);
    var left := TrimLeft(s);
    var after := TrimRightPadding(left);
    assert s == before + TrimSpace(s) + after;
    if TrimSpace(s) != "" {
      assert TrimSpace(s)[0] == left[0];
    }
  }

  /** Trimming takes off exactly the blanks at the ends. */
  lemma TrimExactly(s: string, t: string)
    ensures t == TrimSpace(s) <==> Tight(t) && Padded(s, t)
  {
    TrimmedIsPadded(s);
    if Tight(t) && Padded(s, t) {
      var b, a :| s == b + t + a && Blank(b) && Blank(a);
      PaddingGoes(b, t, a);
    }
  }

  lemma PaddingGoes(b: string, t: string, a: string)
    requires Tight(t) && Blank(b) && Blank(a)
    ensures TrimSpace(b + t + a) == t
  {
    if t == "" {
      BlankIsTrimmed(b + t + a);
    } else {
      assert b + t + a == b + (t + a);
      TrimLeftDrops(b, t + a);
      TrimRightDrops(t, a);
    }
  }

  lemma {:induction false} BlankIsTrimmed(s: string)
    requires Blank(s)
    ensures TrimSpace(s) == ""
  {
    TrimLeftDrops(s, "");
    assert s + "" == s;
  }

  /** The text before the first occurrence of c, and the text after it. */
  function Cut(s: string, c: char): Option<(string, string)> {
    if s == "" then None
    else if s[0] == c then Some(("", s[1..]))
    else match Cut(s[1..], c)
      case None => None
      case Some((left, right)) => Some(([s[0]] + left, right))
  }

  lemma {:induction false} CutExactly(s: string, c: char, left: string, right: string)
    ensures Cut(s, c) == Some((left, right)) <==> s == left + [c] + right && c !in left
  {
    if s != "" && s[0] != c {
      if left != "" {
        CutExactly(s[1..], c, left[1..], right);
        assert left == [left[0]] + left[1..];
        if s == left + [c] + right {
          assert s[1..] == left[1..] + [c] + right;
        }
      }
    }
  }

  lemma {:induction false} CutFails(s: string, c: char)
    ensures Cut(s, c).None? <==> c !in s
  {
    if s != "" && s[0] != c {
      CutFails(s[1..], c);
    }
  }

  // ---- numbers ----

  predicate IsDigit(c: char) {
    '0' <= c <= '9'
  }

  function Digit(n: nat): char
    requires n < 10
  {
    '0' + n as char
  }

  function DigitsValue(s: string): Option<nat> {
    if s == "" then None
    else
      var c := s[|s| - 1];
      if !IsDigit(c) then None
      else
        var d := c as int - '0' as int;
        if |s| == 1 then Some(d)
        else match DigitsValue(s[..|s| - 1])
          case None => None
          case Some(v) => Some(10 * v + d)
  }

  const MAX_INT := 0x7FFF_FFFF_FFFF_FFFF

  function Signed(negative: bool, v: int): int {
    if negative then -v else v
  }

  predicate IsSign(c: char) {
    c == '+' || c == '-'
  }

  /** A decimal number with an optional sign, in the range of a 64-bit integer. */
  function Atoi(s: string): Option<int> {
    var signed := s != "" && IsSign(s[0]);
    match DigitsValue(if signed then s[1..] else s)
    case None => None
    case Some(v) =>
      var n := Signed(signed && s[0] == '-', v);
      if -MAX_INT - 1 <= n <= MAX_INT then Some(n) else None
  }

  predicate AllDigits(s: string) {
    forall i | 0 <= i < |s| :: IsDigit(s[i])
  }

  function Pow10(n: nat): nat {
    if n == 0 then 1 else 10 * Pow10(n - 1)
  }

  function DigitAt(s: string, i: nat): nat
    requires i < |s| && IsDigit(s[i])
  {
    s[i] as int - '0' as int
  }

  /** The number a string of digits stands for: each digit times its power of ten. */
  function Positional(s: string): nat
    requires AllDigits(s)
  {
    if s == "" then 0 else DigitAt(s, 0) * Pow10(|s| - 1) + Positional(s[1..])
  }

  lemma TenTimes(d: nat, p: nat)
    ensures d * (10 * p) == 10 * (d * p)
  {
  }

  /** Shifting by one place and adding a last digit. */
  lemma {:induction false} PositionalShifts(s: string)
    requires s != "" && AllDigits(s)
    ensures Positional(s) == 10 * Positional(s[..|s| - 1]) + DigitAt(s, |s| - 1)
  {
    var n := |s| - 1;
    if n == 0 {
      assert s[1..] == "" && s[..0] == "";
    } else {
      PositionalShifts(s[1..]);
      assert s[1..][..n - 1] == s[..n][1..];
      TenTimes(DigitAt(s, 0), Pow10(n - 1));
    }
  }

  lemma {:induction false} DigitsValueExactly(s: string, v: nat)
    ensures DigitsValue(s) == Some(v) <==> s != "" && AllDigits(s) && v == Positional(s)
  {
    if s != "" {
      var n := |s| - 1;
      assert AllDigits(s) <==> AllDigits(s[..n]) && IsDigit(s[n]);
      if AllDigits(s) {
        PositionalShifts(s);
        DigitsValueExactly(s[..n], Positional(s[..n]));
      } else if IsDigit(s[n]) && n > 0 && DigitsValue(s[..n]).Some? {
        DigitsValueExactly(s[..n], DigitsValue(s[..n]).value);
      }
    }
  }

  /** An optional sign and one or more digits, standing for n, which is in the range of a 64-bit integer. */
  ghost predicate IsNumeral(s: string, n: int) {
    -MAX_INT - 1 <= n <= MAX_INT && (StandsFor(s, false, n) || SignedStandsFor(s, n))
  }

  predicate StandsFor(digits: string, negative: bool, n: int) {
    digits != "" && AllDigits(digits) && n == Signed(negative, Positional(digits))
  }

  predicate SignedStandsFor(s: string, n: int) {
    s != "" && IsSign(s[0]) && StandsFor(s[1..], s[0] == '-', n)
  }

  lemma AtoiExactly(s: string, n: int)
    ensures Atoi(s) == Some(n) <==> IsNumeral(s, n)
  {
    var signed := s != "" && IsSign(s[0]);
    var digits := if signed then s[1..] else s;
    assert signed ==> !AllDigits(s) by {
      if signed { assert !IsDigit(s[0]); }
    }
    if DigitsValue(digits).Some? {
      DigitsValueExactly(digits, DigitsValue(digits).value);
    }
    if AllDigits(digits) {
      DigitsValueExactly(digits, Positional(digits));
    }
  }

  /** A number in decimal. */
  function Decimal(n: nat): (s: string)
    ensures s != "" && AllDigits(s)
  {
    if n < 10 then [Digit(n)] else Decimal(n / 10) + [Digit(n % 10)]
  }

  lemma {:induction false} DecimalIsRead(n: nat)
    ensures DigitsValue(Decimal(n)) == Some(n)
  {
    if n >= 10 {
      DecimalIsRead(n / 10);
      assert Decimal(n)[..|Decimal(n)| - 1] == Decimal(n / 10);
    }
  }

  // ---- one peer ----

  function ParsePeer(spec: string): Result<Peer> {
    match Cut(spec, '@')
    case None => Err(NoSeparator(spec))
    case Some((left, right)) =>
      match Atoi(TrimSpace(left))
      case None => Err(InvalidId(spec))
      case Some(id) =>
        var addr := TrimSpace(right);
        if id < 0 then Err(NegativeId(spec))
        else if addr == "" then Err(EmptyAddress(spec))
        else Ok(Peer(id, addr))
  }

  /** The spec around its first "@". */
  predicate Splits(spec: string, left: string, right: string) {
    spec == left + ['@'] + right && '@' !in left
  }

  /** The text is a numeral for n, with blanks around it. */
  ghost predicate Numbers(text: string, n: int) {
    exists number :: Tight(number) && Padded(text, number) && IsNumeral(number, n)
  }

  lemma NumbersExactly(text: string, n: int)
    ensures Numbers(text, n) <==> Atoi(TrimSpace(text)) == Some(n)
  {
    TrimExactly(text, TrimSpace(text));
    AtoiExactly(TrimSpace(text), n);
    if Numbers(text, n) {
      var number :| Tight(number) && Padded(text, number) && IsNumeral(number, n);
      TrimExactly(text, number);
    }
  }

  /** A spec reads as a peer: a numeral for its id, which is not negative, the first "@", an address, and blanks around
      each. */
  ghost predicate ReadsAs(spec: string, peer: Peer) {
    exists left, right ::
      && Splits(spec, left, right) && Numbers(left, peer.id) && peer.id >= 0
      && Tight(peer.addr) && Padded(right, peer.addr) && peer.addr != ""
  }

  lemma ReadsWhenParsed(spec: string, peer: Peer)
    requires ParsePeer(spec) == Ok(peer)
    ensures ReadsAs(spec, peer)
  {
    var (left, right) := Cut(spec, '@').value;
    CutExactly(spec, '@', left, right);
    NumbersExactly(left, peer.id);
    TrimExactly(right, peer.addr);
    assert Splits(spec, left, right);
  }

  lemma ParsesWhenRead(spec: string, left: string, right: string, peer: Peer)
    requires Splits(spec, left, right) && Numbers(left, peer.id) && peer.id >= 0
    requires Tight(peer.addr) && Padded(right, peer.addr) && peer.addr != ""
    ensures ParsePeer(spec) == Ok(peer)
  {
    CutExactly(spec, '@', left, right);
    NumbersExactly(left, peer.id);
    TrimExactly(right, peer.addr);
  }

  lemma ParsesExactly(spec: string, peer: Peer)
    ensures ParsePeer(spec) == Ok(peer) <==> ReadsAs(spec, peer)
  {
    if ReadsAs(spec, peer) {
      var left, right :|
        && Splits(spec, left, right) && Numbers(left, peer.id) && peer.id >= 0
        && Tight(peer.addr) && Padded(right, peer.addr) && peer.addr != "";
      ParsesWhenRead(spec, left, right, peer);
    }
    if ParsePeer(spec) == Ok(peer) {
      ReadsWhenParsed(spec, peer);
    }
  }

  /** What is wrong with a spec: no "@", a left side that is no numeral, one for a negative number, or a blank right side. */
  ghost predicate Faulty(spec: string, e: Error) {
    match e
    case NoSeparator(at) => at == spec && '@' !in spec
    case InvalidId(at) => at == spec && exists left, right :: Splits(spec, left, right) && forall n :: !Numbers(left, n)
    case NegativeId(at) => at == spec && exists left, right, n :: Splits(spec, left, right) && Numbers(left, n) && n < 0
    case EmptyAddress(at) =>
      at == spec && exists left, right, n :: Splits(spec, left, right) && Numbers(left, n) && n >= 0 && Blank(right)
    case _ => false
  }

  /** A spec is refused with an error if and only if that is what is wrong with it. */
  lemma RefusesExactly(spec: string, e: Error)
    ensures ParsePeer(spec) == Err(e) <==> Faulty(spec, e)
  {
    CutFails(spec, '@');
    if '@' in spec {
      var (left, right) := Cut(spec, '@').value;
      RefusesSplit(spec, left, right, e);
    } else {
      forall left, right ensures !Splits(spec, left, right) {
        assert '@' in left + ['@'] + right;
      }
    }
  }

  lemma {:induction false} RefusesSplit(spec: string, left: string, right: string, e: Error)
    requires Cut(spec, '@') == Some((left, right)) && '@' in spec
    ensures ParsePeer(spec) == Err(e) <==> Faulty(spec, e)
  {
    forall l, r ensures Splits(spec, l, r) <==> l == left && r == right {
      CutExactly(spec, '@', l, r);
    }
    forall n ensures Numbers(left, n) <==> Atoi(TrimSpace(left)) == Some(n) {
      NumbersExactly(left, n);
    }
    TrimsToNothing(right);
    assert Splits(spec, left, right);
    if Atoi(TrimSpace(left)).Some? {
      assert Numbers(left, Atoi(TrimSpace(left)).value);
    }
  }

  lemma TrimsToNothing(text: string)
    ensures TrimSpace(text) == "" <==> Blank(text)
  {
    TrimExactly(text, "");
    if Blank(text) {
      BlankIsTrimmed(text);
    }
    if Padded(text, "") {
      var before, after :| text == before + "" + after && Blank(before) && Blank(after);
      assert forall i | 0 <= i < |text| :: text[i] == if i < |before| then before[i] else after[i - |before|];
    }
  }

  /** Any peer with an id in range and an address free of outer blanks survives being written and parsed. */
  lemma PeerRoundTrip(peer: Peer, a: string, b: string, c: string, d: string)
    requires 0 <= peer.id <= MAX_INT && Tight(peer.addr) && peer.addr != ""
    requires Blank(a) && Blank(b) && Blank(c) && Blank(d)
    ensures ParsePeer(a + Decimal(peer.id) + b + ['@'] + (c + peer.addr + d)) == Ok(peer)
  {
    var number := Decimal(peer.id);
    var left, right := a + number + b, c + peer.addr + d;
    DecimalIsRead(peer.id);
    assert IsDigit(number[0]) && IsDigit(number[|number| - 1]);
    assert Atoi(number) == Some(peer.id);
    AtoiExactly(number, peer.id);
    assert Padded(left, number) && Padded(right, peer.addr);
    assert Splits(left + ['@'] + right, left, right) && Numbers(left, peer.id);
    ParsesWhenRead(left + ['@'] + right, left, right, peer);
  }

  // ---- all peers ----

  /** What each spec parses to. */
  function Parsed(specs: seq<string>): (parsed: seq<Result<Peer>>)
    ensures |parsed| == |specs| && forall i | 0 <= i < |specs| :: parsed[i] == ParsePeer(specs[i])
  {
    seq(|specs|, i requires 0 <= i < |specs| => ParsePeer(specs[i]))
  }

  /** The first n specs parse, none of them has the node's own id, and no two have one id. */
  predicate ProperUpTo(parsed: seq<Result<Peer>>, self: int, n: nat)
    requires n <= |parsed|
  {
    && (forall i | 0 <= i < n :: parsed[i].Ok? && parsed[i].value.id != self)
    && (forall i, j | 0 <= i < j < n :: parsed[i].value.id != parsed[j].value.id)
  }

  predicate Proper(specs: seq<string>, self: int) {
    ProperUpTo(Parsed(specs), self, |specs|)
  }

  /** Spec i is at fault, the specs before it being proper. */
  ghost predicate FaultAt(specs: seq<string>, self: int, i: nat, e: Error) {
    && i < |specs| && ProperUpTo(Parsed(specs), self, i)
    && match Parsed(specs)[i]
       case Err(error) => e == error
       case Ok(peer) =>
         if peer.id == self then e == OwnId(specs[i])
         else exists j | 0 <= j < i ::
           Parsed(specs)[j].value.id == peer.id && e == DuplicateId(specs[i], Parsed(specs)[j].value.addr)
  }

  /** The first specs are proper and read as these peers. */
  ghost predicate Read(parsed: seq<Result<Peer>>, self: int, peers: seq<Peer>) {
    && |peers| <= |parsed| && ProperUpTo(parsed, self, |peers|)
    && forall j | 0 <= j < |peers| :: parsed[j] == Ok(peers[j])
  }

  /** The map holds the peers' addresses by id. */
  ghost predicate Indexed(peers: seq<Peer>, seen: map<int, string>) {
    && (forall j | 0 <= j < |peers| :: peers[j].id in seen && seen[peers[j].id] == peers[j].addr)
    && (forall id | id in seen :: HasId(peers, id))
  }

  ghost predicate HasId(peers: seq<Peer>, id: int) {
    exists j :: 0 <= j < |peers| && peers[j].id == id
  }

  lemma ReadOneMore(parsed: seq<Result<Peer>>, self: int, peers: seq<Peer>, seen: map<int, string>, peer: Peer)
    requires Read(parsed, self, peers) && Indexed(peers, seen) && |peers| < |parsed|
    requires parsed[|peers|] == Ok(peer) && peer.id != self && peer.id !in seen
    ensures Read(parsed, self, peers + [peer]) && Indexed(peers + [peer], seen[peer.id := peer.addr])
  {
    var peers' := peers + [peer];
    forall id | id in seen[peer.id := peer.addr] ensures HasId(peers', id) {
      if id == peer.id {
        assert peers'[|peers|].id == id;
      } else {
        var j :| 0 <= j < |peers| && peers[j].id == id;
        assert peers'[j].id == id;
      }
    }
  }

  lemma DuplicateIsFault(specs: seq<string>, self: int, peers: seq<Peer>, seen: map<int, string>, peer: Peer)
    requires Read(Parsed(specs), self, peers) && Indexed(peers, seen) && |peers| < |specs|
    requires Parsed(specs)[|peers|] == Ok(peer) && peer.id != self && peer.id in seen
    ensures FaultAt(specs, self, |peers|, DuplicateId(specs[|peers|], seen[peer.id]))
  {
    assert HasId(peers, peer.id);
    var j :| 0 <= j < |peers| && peers[j].id == peer.id;
    assert Parsed(specs)[j] == Ok(peers[j]);
  }

  /** A spec at fault leaves the whole list improper. */
  lemma FaultIsImproper(specs: seq<string>, self: int, i: nat, e: Error)
    requires FaultAt(specs, self, i, e)
    ensures !Proper(specs, self)
  {
  }

  /** The peers of proper specs, in order; otherwise what is wrong with the first spec at fault. */
  method ParsePeers(specs: seq<string>, self: int) returns (r: Result<seq<Peer>>)
    ensures r.Ok? <==> Proper(specs, self)
    ensures r.Ok? ==> |r.value| == |specs| && forall i | 0 <= i < |specs| :: ParsePeer(specs[i]) == Ok(r.value[i])
    ensures r.Err? ==> exists i :: FaultAt(specs, self, i, r.error)
  {
    var peers: seq<Peer> := [];
    var seen: map<int, string> := map[];
    for i := 0 to |specs|
      invariant |peers| == i && Read(Parsed(specs), self, peers) && Indexed(peers, seen)
    {
      var parsed := ParsePeer(specs[i]);
      assert parsed == Parsed(specs)[i];
      if parsed.Err? {
        r := Err(parsed.error);
        assert FaultAt(specs, self, i, r.error);
        FaultIsImproper(specs, self, i, r.error);
        return;
      }
      var peer := parsed.value;
      if peer.id == self {
        r := Err(OwnId(specs[i]));
        assert FaultAt(specs, self, i, r.error);
        FaultIsImproper(specs, self, i, r.error);
        return;
      }
      if peer.id in seen {
        r := Err(DuplicateId(specs[i], seen[peer.id]));
        DuplicateIsFault(specs, self, peers, seen, peer);
        FaultIsImproper(specs, self, i, r.error);
        return;
      }
      ReadOneMore(Parsed(specs), self, peers, seen, peer);
      seen := seen[peer.id := peer.addr];
      peers := peers + [peer];
    }
    return Ok(peers);
  }

  function Ids(peers: seq<Peer>): (ids: seq<int>)
    ensures |ids| == |peers|
  {
    seq(|peers|, i requires 0 <= i < |peers| => peers[i].id)
  }

  /** The acceptors a node's proposer counts over are itself and its parsed peers: all distinct, so its quorum of slots is
      a quorum of the cluster. */
  lemma MembersAreDistinct(specs: seq<string>, self: int, peers: seq<Peer>) returns (members: set<int>)
    requires Proper(specs, self) && |peers| == |specs|
    requires forall i | 0 <= i < |specs| :: ParsePeer(specs[i]) == Ok(peers[i])
    ensures Enumerates([self] + Ids(peers), members) && |members| == |specs| + 1
  {
    var slots := [self] + Ids(peers);
    members := set a | a in slots;
    forall i, j | 0 <= i < j < |slots| ensures slots[i] != slots[j] {
      assert Parsed(specs)[j - 1] == Ok(peers[j - 1]);
      if i > 0 { assert Parsed(specs)[i - 1] == Ok(peers[i - 1]); }
    }
    EnumerationSize(slots, members);
  }
}
