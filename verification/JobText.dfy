/** The job protocol's text: decimal numbers, space-separated tokens, and the lines both ends write and read. */
module JobText {
  import opened Wrappers

  // --- numbers --------------------------------------------------------------

  predicate IsDigit(c: char) {
    '0' <= c <= '9'
  }

  function Digit(d: nat): (c: char)
    requires d < 10
    ensures IsDigit(c) && DigitValue(c) == d
  {
    (('0' as int) + d) as char
  }

  function DigitValue(c: char): (d: nat)
    requires IsDigit(c)
    ensures d < 10
  {
    (c as int) - ('0' as int)
  }

  function Decimal(n: nat): string {
    if n < 10 then [Digit(n)] else Decimal(n / 10) + [Digit(n % 10)]
  }

  predicate AllDigits(s: string) {
    forall i :: 0 <= i < |s| ==> IsDigit(s[i])
  }

  function Value(s: string): nat
    requires AllDigits(s)
  {
    if s == "" then 0 else 10 * Value(s[..|s| - 1]) + DigitValue(s[|s| - 1])
  }

  /** The manager's reply schema: digits without a leading zero. */
  predicate PositiveDecimal(s: string) {
    s != "" && AllDigits(s) && s[0] != '0'
  }

  lemma {:induction false} ValueOfDecimal(n: nat)
    ensures AllDigits(Decimal(n)) && Value(Decimal(n)) == n && Decimal(n) != ""
    ensures n > 0 ==> PositiveDecimal(Decimal(n))
  {
    if n < 10 {
      assert Decimal(n)[..0] == "";
    } else {
      ValueOfDecimal(n / 10);
      var front := Decimal(n / 10);
      assert Decimal(n) == front + [Digit(n % 10)];
      assert (front + [Digit(n % 10)])[..|front|] == front;
    }
  }

  /** Comparing accepted numbers as text, as the manager does, is comparing them as numbers. */
  lemma {:induction false} DecimalOfValue(s: string)
    requires PositiveDecimal(s)
    ensures Value(s) > 0 && Decimal(Value(s)) == s
  {
    var front, last := s[..|s| - 1], s[|s| - 1];
    if front == "" {
      assert Value(front) == 0 && s == [last];
    } else {
      DecimalOfValue(front);
      assert Value(s) / 10 == Value(front) && Value(s) % 10 == DigitValue(last);
      assert s == front + [last];
    }
  }

  // --- tokens ---------------------------------------------------------------

  function Split(line: string): (tokens: seq<string>)
    ensures tokens != []
  {
    if line == "" then [""]
    else
      var rest := Split(line[1..]);
      if line[0] == ' ' then [""] + rest else [[line[0]] + rest[0]] + rest[1..]
  }

  function Join(tokens: seq<string>): string
    requires tokens != []
  {
    if |tokens| == 1 then tokens[0] else tokens[0] + " " + Join(tokens[1..])
  }

  /** Neither a space nor a newline: it cannot end its token or its line. */
  predicate Plain(token: string) {
    forall i :: 0 <= i < |token| ==> token[i] != ' ' && token[i] != '\n'
  }

  predicate AllPlain(tokens: seq<string>) {
    forall i :: 0 <= i < |tokens| ==> Plain(tokens[i])
  }

  lemma {:induction false} SplitToken(token: string, rest: string)
    requires Plain(token)
    ensures Split(token + " " + rest) == [token] + Split(rest)
    ensures Split(token) == [token]
  {
    if token == "" {
      assert token + " " + rest == " " + rest && (" " + rest)[1..] == rest;
    } else {
      SplitToken(token[1..], rest);
      assert (token + " " + rest)[1..] == token[1..] + " " + rest;
      assert [token[0]] + token[1..] == token;
    }
  }

  lemma {:induction false} SplitUndoesJoin(tokens: seq<string>)
    requires tokens != [] && AllPlain(tokens)
    ensures Split(Join(tokens)) == tokens
  {
    if |tokens| == 1 {
      SplitToken(tokens[0], "");
    } else {
      SplitUndoesJoin(tokens[1..]);
      SplitToken(tokens[0], Join(tokens[1..]));
    }
  }

  /** A joined line holds no newline either. */
  lemma {:induction false} JoinHasNoNewline(tokens: seq<string>)
    requires tokens != [] && AllPlain(tokens)
    ensures '\n' !in Join(tokens)
  {
    if |tokens| > 1 {
      JoinHasNoNewline(tokens[1..]);
    }
  }

  lemma DecimalIsPlain(n: nat)
    ensures Plain(Decimal(n))
  {
    ValueOfDecimal(n);
  }

  // --- what the helper says -------------------------------------------------

  datatype ErrorKind = Protocol | Unavailable | Unknown | Exited

  datatype Reply =
    | Ready
    | Bound
    | Prepared(id: nat, pid: nat, created: nat)
    | Assigned(id: nat, pid: nat)
    | Cancelled
    | Retired
    | Error(kind: ErrorKind)

  predicate Nonce(s: string) {
    |s| == 48 && forall i :: 0 <= i < 48 ==> s[i] in "0123456789abcdef"
  }

  function KindText(kind: ErrorKind): string {
    match kind
    case Protocol => "protocol"
    case Unavailable => "unavailable"
    case Unknown => "unknown"
    case Exited => "exited"
  }

  /** The line the helper emits, without its newline. */
  function ReplyTokens(r: Reply, nonce: string): seq<string> {
    match r
    case Ready => ["ready-v1", nonce]
    case Bound => ["bound-v1", nonce]
    case Prepared(id, pid, created) => ["prepared-v1", nonce, Decimal(id), Decimal(pid), Decimal(created)]
    case Assigned(id, pid) => ["assigned-v1", nonce, Decimal(id), Decimal(pid)]
    case Cancelled => ["cancelled-v1", nonce]
    case Retired => ["retired-v1", nonce, "0"]
    case Error(kind) => ["error-v1", nonce, KindText(kind)]
  }

  function ReplyLine(r: Reply, nonce: string): string {
    Join(ReplyTokens(r, nonce))
  }

  predicate NumbersPositive(r: Reply) {
    (r.Prepared? ==> r.id > 0 && r.pid > 0 && r.created > 0) && (r.Assigned? ==> r.id > 0 && r.pid > 0)
  }

  /** The manager's reply schema, then its identity check. */
  function ParseTokens(t: seq<string>, nonce: string): Option<Reply> {
    if |t| < 2 || !Nonce(t[1]) || t[1] != nonce then None
    else if t[0] == "ready-v1" && |t| == 2 then Some(Ready)
    else if t[0] == "bound-v1" && |t| == 2 then Some(Bound)
    else if t[0] == "prepared-v1" && |t| == 5 && PositiveDecimal(t[2]) && PositiveDecimal(t[3]) && PositiveDecimal(t[4])
    then Some(Prepared(Value(t[2]), Value(t[3]), Value(t[4])))
    else if t[0] == "assigned-v1" && |t| == 4 && PositiveDecimal(t[2]) && PositiveDecimal(t[3])
    then Some(Assigned(Value(t[2]), Value(t[3])))
    else if t[0] == "cancelled-v1" && |t| == 2 then Some(Cancelled)
    else if t[0] == "retired-v1" && |t| == 3 && t[2] == "0" then Some(Retired)
    else if t[0] == "error-v1" && |t| == 3 then
      if t[2] == "protocol" then Some(Error(Protocol))
      else if t[2] == "unavailable" then Some(Error(Unavailable))
      else if t[2] == "unknown" then Some(Error(Unknown))
      else if t[2] == "exited" then Some(Error(Exited))
      else None
    else None
  }

  function ParseReply(line: string, nonce: string): Option<Reply> {
    ParseTokens(Split(line), nonce)
  }

  /** A reply as the manager's schema admits it. */
  function Admitted(r: Reply): Option<Reply> {
    if NumbersPositive(r) then Some(r) else None
  }

  lemma NonceIsPlain(nonce: string)
    requires Nonce(nonce)
    ensures Plain(nonce)
  {
  }

  lemma KindsArePlain(kind: ErrorKind)
    ensures Plain(KindText(kind)) && Plain("error-v1")
  {
  }

  lemma NumbersArePlain(r: Reply, nonce: string)
    requires Plain(nonce) && (r.Prepared? || r.Assigned?)
    ensures AllPlain(ReplyTokens(r, nonce))
  {
    hide Decimal;
    DecimalIsPlain(r.id);
    DecimalIsPlain(r.pid);
    if r.Prepared? {
      DecimalIsPlain(r.created);
    }
  }

  lemma WordsArePlain(r: Reply, nonce: string)
    requires Plain(nonce) && !r.Prepared? && !r.Assigned?
    ensures AllPlain(ReplyTokens(r, nonce))
  {
    hide KindText;
    if r.Error? {
      KindsArePlain(r.kind);
    }
  }

  lemma ReplyTokensPlain(r: Reply, nonce: string)
    requires Nonce(nonce)
    ensures AllPlain(ReplyTokens(r, nonce))
  {
    hide ReplyTokens, Nonce;
    NonceIsPlain(nonce);
    if r.Prepared? || r.Assigned? {
      NumbersArePlain(r, nonce);
    } else {
      WordsArePlain(r, nonce);
    }
  }

  lemma PositiveDecimalOf(n: nat)
    ensures PositiveDecimal(Decimal(n)) <==> n > 0
    ensures AllDigits(Decimal(n)) && Value(Decimal(n)) == n
  {
    ValueOfDecimal(n);
  }

  lemma ParseUndoesNumbers(r: Reply, nonce: string)
    requires Nonce(nonce) && (r.Prepared? || r.Assigned?)
    ensures ParseTokens(ReplyTokens(r, nonce), nonce) == Admitted(r)
  {
    hide Decimal, PositiveDecimal, Nonce, Value;
    PositiveDecimalOf(r.id);
    PositiveDecimalOf(r.pid);
    if r.Prepared? {
      PositiveDecimalOf(r.created);
    }
  }

  lemma ParseUndoesTokens(r: Reply, nonce: string)
    requires Nonce(nonce)
    ensures ParseTokens(ReplyTokens(r, nonce), nonce) == Admitted(r)
  {
    hide Decimal, PositiveDecimal, Nonce, Value;
    if r.Prepared? || r.Assigned? {
      ParseUndoesNumbers(r, nonce);
    }
  }

  /** Every reply the helper emits reads back on the manager's side as itself, or not at all if a number in it is zero. */
  lemma ParseUndoesReply(r: Reply, nonce: string)
    requires Nonce(nonce)
    ensures ParseReply(ReplyLine(r, nonce), nonce) == Admitted(r)
  {
    hide ReplyTokens, ParseTokens, Nonce;
    ReplyTokensPlain(r, nonce);
    ReplyHasTokens(r, nonce);
    SplitUndoesJoin(ReplyTokens(r, nonce));
    ParseUndoesTokens(r, nonce);
  }

  lemma ReplyHasTokens(r: Reply, nonce: string)
    ensures ReplyTokens(r, nonce) != []
  {
  }

  // --- what the manager says ------------------------------------------------

  datatype Command = Bind | Prepare(id: nat, pid: nat) | Assign(id: nat) | Close

  function CommandTokens(c: Command, nonce: string): seq<string> {
    match c
    case Bind => ["bind-v1", nonce]
    case Prepare(id, pid) => ["prepare-v1", nonce, Decimal(id), Decimal(pid)]
    case Assign(id) => ["assign-v1", nonce, Decimal(id)]
    case Close => ["close-v1", nonce]
  }

  function CommandLine(c: Command, nonce: string): string {
    Join(CommandTokens(c, nonce))
  }

  const MAX_U32 := 4294967295

  /** The helper's number check: digits that fit 32 bits, and not zero. */
  function Positive(raw: string): Option<nat> {
    if raw == "" || !AllDigits(raw) || Value(raw) == 0 || Value(raw) > MAX_U32 then None else Some(Value(raw))
  }

  /** A request as the helper's loop dispatches it; `BadNumber` ends the loop, `Unmatched` is answered with a protocol error. */
  datatype Request = Understood(command: Command) | BadNumber | Unmatched

  function ReadTokens(t: seq<string>, nonce: string): Request {
    if |t| < 2 || t[1] != nonce then Unmatched
    else if t[0] == "bind-v1" && |t| == 2 then Understood(Bind)
    else if t[0] == "prepare-v1" && |t| == 4 then
      if Positive(t[2]).None? || Positive(t[3]).None? then BadNumber
      else Understood(Prepare(Positive(t[2]).value, Positive(t[3]).value))
    else if t[0] == "assign-v1" && |t| == 3 then
      if Positive(t[2]).None? then BadNumber else Understood(Assign(Positive(t[2]).value))
    else if t[0] == "close-v1" && |t| == 2 then Understood(Close)
    else Unmatched
  }

  function ReadRequest(line: string, nonce: string): Request {
    ReadTokens(Split(line), nonce)
  }

  predicate NumbersFit(c: Command) {
    (c.Prepare? ==> 0 < c.id <= MAX_U32 && 0 < c.pid <= MAX_U32) && (c.Assign? ==> 0 < c.id <= MAX_U32)
  }

  lemma PositiveOfDecimal(n: nat)
    ensures Positive(Decimal(n)) == if 0 < n <= MAX_U32 then Some(n) else None
  {
    ValueOfDecimal(n);
  }

  lemma CommandTokensPlain(c: Command, nonce: string)
    requires Nonce(nonce)
    ensures AllPlain(CommandTokens(c, nonce)) && CommandTokens(c, nonce) != []
  {
    hide Decimal, Nonce;
    NonceIsPlain(nonce);
    match c
    case Prepare(id, pid) =>
      DecimalIsPlain(id);
      DecimalIsPlain(pid);
    case Assign(id) => DecimalIsPlain(id);
    case _ =>
  }

  lemma ReadUndoesTokens(c: Command, nonce: string)
    ensures ReadTokens(CommandTokens(c, nonce), nonce) == if NumbersFit(c) then Understood(c) else BadNumber
  {
    hide Decimal, Positive;
    match c
    case Prepare(id, pid) =>
      PositiveOfDecimal(id);
      PositiveOfDecimal(pid);
    case Assign(id) => PositiveOfDecimal(id);
    case _ =>
  }

  /** The helper understands a command of this manager exactly when its numbers fit 32 bits. */
  lemma HelperReadsWhatTheManagerWrites(c: Command, nonce: string)
    requires Nonce(nonce)
    ensures ReadRequest(CommandLine(c, nonce), nonce) == if NumbersFit(c) then Understood(c) else BadNumber
  {
    hide CommandTokens, ReadTokens, Nonce;
    CommandTokensPlain(c, nonce);
    SplitUndoesJoin(CommandTokens(c, nonce));
    ReadUndoesTokens(c, nonce);
  }

  function Pow10(k: nat): nat {
    if k == 0 then 1 else 10 * Pow10(k - 1)
  }

  lemma {:induction false} DecimalLength(n: nat, k: nat)
    requires 0 < k && n < Pow10(k)
    ensures |Decimal(n)| <= k
  {
    if n >= 10 {
      assert k > 1;
      DecimalLength(n / 10, k - 1);
    }
  }

  lemma {:induction false} JoinLength(tokens: seq<string>, k: nat)
    requires tokens != [] && forall i :: 0 <= i < |tokens| ==> |tokens[i]| <= k
    ensures |Join(tokens)| + 1 <= (k + 1) * |tokens|
  {
    if |tokens| > 1 {
      JoinLength(tokens[1..], k);
    }
  }

  /** With its newline, a command whose numbers fit stays within the 256 bytes the helper accepts for a line. */
  lemma CommandsFitTheLineLimit(c: Command, nonce: string)
    requires Nonce(nonce) && NumbersFit(c)
    ensures |CommandLine(c, nonce)| + 1 <= 256
  {
    assert Pow10(10) == 10000000000 by {
      assert Pow10(3) == 1000 && Pow10(5) == 100000 && Pow10(8) == 100000000;
    }
    if c.Prepare? {
      DecimalLength(c.id, 10);
      DecimalLength(c.pid, 10);
    } else if c.Assign? {
      DecimalLength(c.id, 10);
    }
    JoinLength(CommandTokens(c, nonce), 48);
  }

  /** The numbers of a reply as the helper's 32-bit and 64-bit fields hold them. */
  predicate ReplyFits(r: Reply) {
    && (r.Prepared? ==> r.id <= MAX_U32 && r.pid <= MAX_U32 && r.created < 0x1_0000_0000_0000_0000)
    && (r.Assigned? ==> r.id <= MAX_U32 && r.pid <= MAX_U32)
  }

  /** A reply line stays under the manager's frame limit. */
  lemma RepliesFitTheFrameLimit(r: Reply, nonce: string)
    requires Nonce(nonce) && ReplyFits(r)
    ensures |ReplyLine(r, nonce)| < 256
  {
    assert Pow10(10) == 10000000000 && Pow10(20) == 100000000000000000000 by {
      assert Pow10(5) == 100000 && Pow10(10) == 10000000000 && Pow10(15) == 1000000000000000;
    }
    if r.Prepared? {
      DecimalLength(r.id, 10);
      DecimalLength(r.pid, 10);
      DecimalLength(r.created, 20);
    } else if r.Assigned? {
      DecimalLength(r.id, 10);
      DecimalLength(r.pid, 10);
    }
    JoinLength(ReplyTokens(r, nonce), 48);
  }
}
