/**
 * The statement parser: a lenient, lexical reading of OFX 1.x SGML. It takes
 * one global bank code, cuts the document into `<STMTTRN>` ... `</STMTTRN>`
 * blocks, reads each block's fields by "first tag occurrence, then a run of
 * value characters", and turns each block into a transaction or skips it.
 */
module OfxParser {
  import opened Wrappers
  import opened Text
  import opened Decimals
  import opened BankTransactions

  // ---------------------------------------------------------------------------
  // Tag-value extraction: the patterns `<TAG>(class+)` and `<TAG>(class{n})`
  // ---------------------------------------------------------------------------

  /** The character classes of the value groups: `\d`, `[-\d.]`, `\w` and `[^<\n\r]`. */
  datatype CharClass = Digits | AmountChars | WordChars | LineText

  predicate InClass(k: CharClass, c: char) {
    match k
    case Digits => IsDigit(c)
    case AmountChars => c == '-' || c == '.' || IsDigit(c)
    case WordChars => IsDigit(c) || 'a' <= c <= 'z' || 'A' <= c <= 'Z' || c == '_'
    case LineText => c != '<' && c != '\n' && c != '\r'
  }

  predicate AllIn(k: CharClass, s: string) {
    forall i | 0 <= i < |s| :: InClass(k, s[i])
  }

  /** A greedy `+` or an exact `{n}` repetition of the value class. */
  datatype Repeat = OneOrMore | Exactly(count: nat)

  /** The regular expression `tag(cls repeat)`, whose group is the value. */
  datatype TagPattern = TagPattern(tag: string, cls: CharClass, repeat: Repeat)

  const BankIdPattern := TagPattern("<BANKID>", Digits, OneOrMore)
  const TrnTypePattern := TagPattern("<TRNTYPE>", WordChars, OneOrMore)
  const TrnAmtPattern := TagPattern("<TRNAMT>", AmountChars, OneOrMore)
  const FitIdPattern := TagPattern("<FITID>", LineText, OneOrMore)
  const MemoPattern := TagPattern("<MEMO>", LineText, OneOrMore)
  const NamePattern := TagPattern("<NAME>", LineText, OneOrMore)
  const DtPostedPattern := TagPattern("<DTPOSTED>", Digits, Exactly(14))

  /** One past the end of the longest run of `k` characters starting at `from`. */
  function RunEnd(k: CharClass, s: string, from: nat): (e: nat)
    requires from <= |s|
    ensures from <= e <= |s|
    ensures AllIn(k, s[from..e])
    ensures e == |s| || !InClass(k, s[e])
    decreases |s| - from
  {
    if from < |s| && InClass(k, s[from]) then
      var e := RunEnd(k, s, from + 1);
      assert s[from..e] == [s[from]] + s[from + 1..e];
      e
    else
      from
  }

  /** The pattern matches at index `i` of `s`. */
  predicate MatchesAt(p: TagPattern, s: string, i: nat) {
    var k := i + |p.tag|;
    && StartsAt(s, i, p.tag)
    && match p.repeat
       case OneOrMore => k < |s| && InClass(p.cls, s[k])
       case Exactly(n) => k + n <= |s| && AllIn(p.cls, s[k..k + n])
  }

  /** The text of the value group of the match at `i` (greedy for `+`). */
  function GroupAt(p: TagPattern, s: string, i: nat): (g: string)
    requires MatchesAt(p, s, i)
    ensures g != [] || p.repeat == Exactly(0)
    ensures AllIn(p.cls, g)
  {
    var k := i + |p.tag|;
    match p.repeat
    case OneOrMore => s[k..RunEnd(p.cls, s, k)]
    case Exactly(n) => s[k..k + n]
  }

  /** The leftmost match at or after `from`, as `Matcher.find` reports it. */
  function FirstMatchFrom(p: TagPattern, s: string, from: nat): (r: Option<nat>)
    ensures r.Some? ==> from <= r.value && MatchesAt(p, s, r.value)
    ensures forall j | from <= j && (r.None? || j < r.value) :: !MatchesAt(p, s, j)
    decreases |s| - from
  {
    if from > |s| then None
    else if MatchesAt(p, s, from) then Some(from)
    else FirstMatchFrom(p, s, from + 1)
  }

  lemma {:induction false} TrimKeepsClass(k: CharClass, s: string)
    requires AllIn(k, s)
    ensures AllIn(k, Trim(s))
  {
    var t := TrimStart(s);
    forall j | 0 <= j < |t|
      ensures InClass(k, t[j])
    {
      assert t[j] == s[|s| - |t| + j];
    }
    var r := TrimEnd(t);
    forall j | 0 <= j < |r|
      ensures InClass(k, r[j])
    {
      assert r[j] == t[j];
    }
  }

  /**
   * `extractTagValue`: the trimmed group of the first match, or `None` where
   * the pattern matches nowhere.
   */
  function ExtractTagValue(p: TagPattern, s: string): (r: Option<string>)
    ensures r.Some? <==> exists i :: MatchesAt(p, s, i)
    ensures r.Some? ==> IsTrimmed(r.value) && AllIn(p.cls, r.value)
  {
    match FirstMatchFrom(p, s, 0)
    case None => None
    case Some(i) =>
      TrimKeepsClass(p.cls, GroupAt(p, s, i));
      Some(Trim(GroupAt(p, s, i)))
  }

  /** The value extracted is the one at the leftmost match. */
  lemma {:induction false} ExtractTagValueIsLeftmost(p: TagPattern, s: string, i: nat)
    requires MatchesAt(p, s, i)
    requires forall j | 0 <= j < i :: !MatchesAt(p, s, j)
    ensures ExtractTagValue(p, s) == Some(Trim(GroupAt(p, s, i)))
  {
    var r := FirstMatchFrom(p, s, 0);
    assert r.Some?;
    assert r.value == i;
  }

  // ---------------------------------------------------------------------------
  // Transaction blocks: `<STMTTRN>(.*?)</STMTTRN>` with DOTALL
  // ---------------------------------------------------------------------------

  const BlockOpen := "<STMTTRN>"
  const BlockClose := "</STMTTRN>"

  /**
   * A match of the block pattern from `i` to the close tag at `j`: an open tag
   * at `i`, a close tag at `j` after it, and no close tag in between (the lazy
   * `.*?` stops at the first one).
   */
  predicate IsBlockAt(s: string, i: nat, j: nat) {
    && StartsAt(s, i, BlockOpen)
    && i + |BlockOpen| <= j
    && StartsAt(s, j, BlockClose)
    && forall k | i + |BlockOpen| <= k < j :: !StartsAt(s, k, BlockClose)
  }

  /** A block found in the document: its open and close tag positions and the text between them. */
  datatype Block = Block(open: nat, close: nat, body: string)

  predicate IsBlockOf(s: string, b: Block) {
    IsBlockAt(s, b.open, b.close) && b.body == s[b.open + |BlockOpen|..b.close]
  }

  /**
   * One `Matcher.find` of the block pattern from `from`: the leftmost open tag
   * and the first close tag after it. When the first open tag has no close tag
   * after it, no later one has either, and the scan ends.
   */
  function NextBlock(s: string, from: nat): (r: Option<Block>)
    ensures r.Some? ==> from <= r.value.open && r.value.open + |BlockOpen| <= r.value.close
    ensures r.Some? ==> r.value.close + |BlockClose| <= |s|
  {
    match IndexOfFrom(s, BlockOpen, from)
    case None => None
    case Some(i) =>
      match IndexOfFrom(s, BlockClose, i + |BlockOpen|)
      case None => None
      case Some(j) => Some(Block(i, j, s[i + |BlockOpen|..j]))
  }

  /**
   * `NextBlock` is the regular-expression match: the block it returns is a
   * match, no match starts between `from` and it, and when it returns nothing
   * there is no match at all from `from` on.
   */
  lemma {:induction false} NextBlockIsLeftmostShortest(s: string, from: nat)
    ensures var r := NextBlock(s, from);
      r.Some? ==> IsBlockOf(s, r.value) && forall i, j | from <= i < r.value.open :: !IsBlockAt(s, i, j)
    ensures NextBlock(s, from).None? ==> forall i, j | from <= i :: !IsBlockAt(s, i, j)
  {
  }

  /** The block `NextBlock` finds is a match of the block pattern. */
  lemma {:induction false} NextBlockIsMatch(s: string, from: nat, b: Block)
    requires NextBlock(s, from) == Some(b)
    ensures IsBlockOf(s, b)
  {
    NextBlockIsLeftmostShortest(s, from);
  }

  /** All blocks from `from` on, each search starting after the previous close tag. */
  function Blocks(s: string, from: nat): (bs: seq<Block>)
    requires from <= |s|
    ensures forall k | 0 <= k < |bs| :: from <= bs[k].open && bs[k].open + |BlockOpen| <= bs[k].close
    ensures forall k | 0 <= k < |bs| - 1 :: bs[k].close + |BlockClose| <= bs[k + 1].open
    decreases |s| - from
  {
    match NextBlock(s, from)
    case None => []
    case Some(b) => [b] + Blocks(s, b.close + |BlockClose|)
  }

  /** Every block of the scan is a match of the block pattern. */
  lemma {:induction false} BlocksAreMatches(s: string, from: nat)
    requires from <= |s|
    ensures forall k | 0 <= k < |Blocks(s, from)| :: IsBlockOf(s, Blocks(s, from)[k])
    decreases |s| - from
  {
    var next := NextBlock(s, from);
    if next.Some? {
      var b := next.value;
      NextBlockIsMatch(s, from, b);
      var from' := b.close + |BlockClose|;
      BlocksStep(s, from, b, from');
      BlocksAreMatches(s, from');
      var rest := Blocks(s, from');
      assert Blocks(s, from) == [b] + rest;
      forall k | 0 <= k < |Blocks(s, from)|
        ensures IsBlockOf(s, Blocks(s, from)[k])
      {
        if k > 0 {
          assert Blocks(s, from)[k] == rest[k - 1];
        }
      }
    }
  }

  /** Blocks do not overlap, and they come in document order. */
  lemma {:induction false} BlocksDisjoint(s: string, from: nat, k: nat, l: nat)
    requires from <= |s|
    requires k < l < |Blocks(s, from)|
    ensures Blocks(s, from)[k].close + |BlockClose| <= Blocks(s, from)[l].open
    decreases l - k
  {
    var bs := Blocks(s, from);
    if l > k + 1 {
      BlocksDisjoint(s, from, k + 1, l);
      assert bs[k].close + |BlockClose| <= bs[k + 1].open;
      assert bs[k + 1].open <= bs[k + 1].close;
    }
  }

  // ---------------------------------------------------------------------------
  // Description
  // ---------------------------------------------------------------------------

  const NoDescription := "Sem descri\U{00E7}\U{00E3}o"

  /** `buildDescription`: absent name or memo count as empty, and both are trimmed first. */
  function BuildDescription(name: Option<string>, memo: Option<string>): (r: string)
    ensures r != []
    ensures IsTrimmed(r)
  {
    Describe(Trim(name.UnwrapOr("")), Trim(memo.UnwrapOr("")))
  }

  /** The six-case rule over a trimmed name `n` and a trimmed memo `m`. */
  function Describe(n: string, m: string): (r: string)
    requires IsTrimmed(n) && IsTrimmed(m)
    ensures r != []
    ensures IsTrimmed(r)
  {
    if n == [] then
      if m == [] then NoDescription else m
    else if m == [] then n
    else if EqualsIgnoreCase(n, m) then n
    else if Contains(Lower(m), Lower(n)) then m
    else
      JoinKeepsTrimmed(n, " - ", m);
      n + " - " + m
  }

  lemma {:induction false} JoinKeepsTrimmed(a: string, sep: string, b: string)
    requires a != [] && b != [] && IsTrimmed(a) && IsTrimmed(b)
    ensures IsTrimmed(a + sep + b)
  {
    var j := a + sep + b;
    assert j[0] == a[0];
    assert j[|j| - 1] == b[|b| - 1];
  }

  /**
   * The description never loses text: up to case, it contains both the
   * name and the memo, and it is the placeholder only when both are empty.
   */
  lemma {:induction false} DescribeKeepsNameAndMemo(n: string, m: string)
    requires IsTrimmed(n) && IsTrimmed(m)
    ensures Contains(Lower(Describe(n, m)), Lower(n))
    ensures Contains(Lower(Describe(n, m)), Lower(m))
    ensures n == [] && m == [] ==> Describe(n, m) == NoDescription
  {
    var r := Describe(n, m);
    if n == [] {
      ContainsEmpty(Lower(r));
      if m != [] {
        assert r == m;
        ContainsParts(Lower(m), [], []);
      } else {
        ContainsEmpty(Lower(r));
      }
    } else if m == [] {
      assert r == n;
      ContainsEmpty(Lower(r));
      ContainsParts(Lower(n), [], []);
    } else if EqualsIgnoreCase(n, m) {
      assert r == n;
      ContainsParts(Lower(n), [], []);
    } else if Contains(Lower(m), Lower(n)) {
      assert r == m;
      ContainsParts(Lower(m), [], []);
    } else {
      assert r == n + " - " + m;
      LowerConcat(n + " - ", m);
      LowerConcat(n, " - ");
      ContainsParts(Lower(n), Lower(" - "), Lower(m));
    }
  }

  /** Blank or absent name and memo give the placeholder. */
  lemma {:induction false} BuildDescriptionBlank()
    ensures BuildDescription(None, None) == NoDescription
    ensures BuildDescription(Some(" "), Some("\t")) == NoDescription
  {
    assert Trim(" ") == "" by {
      assert TrimStart(" ") == TrimStart([]);
    }
    assert Trim("\t") == "" by {
      assert TrimStart("\t") == TrimStart([]);
    }
  }

  /** Worked examples: equal texts, one side empty. */
  lemma {:induction false} DescribeExamplesOneSide()
    ensures Describe("Loja ABC", "Loja ABC") == "Loja ABC"
    ensures Describe("Loja ABC", "") == "Loja ABC"
    ensures Describe("", "Compra") == "Compra"
    ensures Describe("", "") == NoDescription
  {
  }

  /** A character folds to lower-case `f` only from `f` or `F`. */
  lemma {:induction false} LowerCharToF(c: char)
    ensures LowerChar(c) == 'f' ==> c == 'f' || c == 'F'
  {
  }

  /** Worked example: a memo that contains the name wins. */
  lemma {:induction false} DescribeExampleMemoContainsName(n: string, m: string)
    requires n == "Posto" && m == "Posto Shell Unidade 2"
    ensures Describe(n, m) == m
  {
    assert |Lower(n)| != |Lower(m)|;
    assert Lower(n) <= Lower(m)[0..];
  }

  /** A needle whose first character never occurs in the haystack does not occur in it. */
  lemma {:induction false} FirstCharAbsent(hay: string, needle: string)
    requires needle != []
    requires forall i | 0 <= i < |hay| :: hay[i] != needle[0]
    ensures !Contains(hay, needle)
  {
    forall i | 0 <= i <= |hay| - |needle|
      ensures !(needle <= hay[i..])
    {
      assert hay[i..][0] == hay[i];
    }
  }

  /** Worked example: unrelated name and memo are joined. */
  lemma {:induction false} DescribeExampleJoined(n: string, m: string)
    requires n == "Farmacia" && m == "Compra Cartao"
    ensures Describe(n, m) == n + " - " + m
  {
    assert |Lower(n)| != |Lower(m)|;
    assert Lower(n)[0] == 'f';
    assert forall i | 0 <= i < |m| :: m[i] != 'f' && m[i] != 'F';
    forall i | 0 <= i < |m|
      ensures Lower(m)[i] != 'f'
    {
      LowerCharToF(m[i]);
    }
    FirstCharAbsent(Lower(m), Lower(n));
  }

  // ---------------------------------------------------------------------------
  // One block
  // ---------------------------------------------------------------------------

  /**
   * What the loop does with one block: emit a transaction, skip it silently
   * (amount absent or zero), or log and skip it (`Rejected`: the conversion
   * threw, on a malformed amount or a missing or invalid date).
   */
  datatype BlockOutcome = Emitted(tx: TxRecord) | NoAmount | ZeroAmount | Rejected

  /** What every transaction the parser emits satisfies. */
  predicate Emittable(t: TxRecord, bankCode: string, dateOk: string -> bool) {
    && !IsZero(t.amount)
    && t.bankCode == bankCode
    && t.categoryId.None?
    && |t.postedAt| == 14 && AllDigits(t.postedAt) && dateOk(t.postedAt)
    && (t.fitId.Some? ==> IsTrimmed(t.fitId.value))
    && t.description != [] && IsTrimmed(t.description)
  }

  /** A `<DTPOSTED>` value is always fourteen digits. */
  lemma {:induction false} DateTextShape(s: string)
    requires ExtractTagValue(DtPostedPattern, s).Some?
    ensures var v := ExtractTagValue(DtPostedPattern, s).value; |v| == 14 && AllDigits(v)
  {
    var i := FirstMatchFrom(DtPostedPattern, s, 0).value;
    var g := GroupAt(DtPostedPattern, s, i);
    assert |g| == 14;
    assert AllIn(Digits, g);
    assert IsTrimmed(g);
    TrimOfTrimmed(g);
  }

  /**
   * The rest of the per-block `try` once the amount is known to be non-zero:
   * read the other fields and build the transaction, which throws when the
   * date is missing or invalid. `dateOk` stands for
   * `LocalDateTime.parse(_, "yyyyMMddHHmmss")` not throwing.
   */
  function ConvertFields(block: string, amount: Decimal, bankCode: string, dateOk: string -> bool): (r: BlockOutcome)
    requires !IsZero(amount)
    ensures r.Emitted? || r.Rejected?
    ensures var dateText := ExtractTagValue(DtPostedPattern, block);
      r.Rejected? <==> dateText.None? || !dateOk(dateText.value)
    ensures r.Emitted? ==> Emittable(r.tx, bankCode, dateOk) && r.tx.amount == amount
    ensures r.Emitted? ==>
              && ExtractTagValue(DtPostedPattern, block) == Some(r.tx.postedAt)
              && r.tx.trnType == ExtractTagValue(TrnTypePattern, block)
              && r.tx.fitId == ExtractTagValue(FitIdPattern, block)
              && r.tx.description == BuildDescription(ExtractTagValue(NamePattern, block), ExtractTagValue(MemoPattern, block))
  {
    var dateText := ExtractTagValue(DtPostedPattern, block);
    var trnType := ExtractTagValue(TrnTypePattern, block);
    var fitId := ExtractTagValue(FitIdPattern, block);
    var name := ExtractTagValue(NamePattern, block);
    var memo := ExtractTagValue(MemoPattern, block);
    var description := BuildDescription(name, memo);
    if dateText.None? || !dateOk(dateText.value) then Rejected
    else
      DateTextShape(block);
      var trimmedFitId := if fitId.Some? then Some(Trim(fitId.value)) else None;
      assert fitId.Some? ==> Trim(fitId.value) == fitId.value by {
        if fitId.Some? {
          TrimOfTrimmed(fitId.value);
        }
      }
      Emitted(TxRecord(trimmedFitId, bankCode, dateText.value, amount, description, trnType, None))
  }

  /** The body of the per-block `try`, from the amount on. */
  function ConvertBlock(block: string, bankCode: string, dateOk: string -> bool): (r: BlockOutcome)
    ensures r.Emitted? ==> Emittable(r.tx, bankCode, dateOk)
    ensures r.Emitted? ==>
              && ExtractTagValue(TrnAmtPattern, block).Some?
              && ParseDecimal(ExtractTagValue(TrnAmtPattern, block).value) == Some(r.tx.amount)
              && ExtractTagValue(DtPostedPattern, block) == Some(r.tx.postedAt)
              && r.tx.trnType == ExtractTagValue(TrnTypePattern, block)
              && r.tx.fitId == ExtractTagValue(FitIdPattern, block)
              && r.tx.description == BuildDescription(ExtractTagValue(NamePattern, block), ExtractTagValue(MemoPattern, block))
  {
    match ExtractTagValue(TrnAmtPattern, block)
    case None => NoAmount
    case Some(amountText) =>
      match ParseDecimal(amountText)
      case None => Rejected
      case Some(amount) =>
        if IsZero(amount) then ZeroAmount else ConvertFields(block, amount, bankCode, dateOk)
  }

  /**
   * Which blocks are skipped and why: silently when the amount is absent or
   * compares equal to zero, with a logged error when the amount is not a
   * decimal literal or the date is missing or invalid.
   */
  lemma {:induction false} ConvertBlockOutcomes(block: string, bankCode: string, dateOk: string -> bool)
    ensures var r := ConvertBlock(block, bankCode, dateOk);
      var amountText := ExtractTagValue(TrnAmtPattern, block);
      && (r.NoAmount? <==> amountText.None?)
      && (r.ZeroAmount? <==> amountText.Some? && IsDecimalLiteral(amountText.value) && OnlyZeroDigits(amountText.value))
    ensures var r := ConvertBlock(block, bankCode, dateOk);
      var amountText := ExtractTagValue(TrnAmtPattern, block);
      var dateText := ExtractTagValue(DtPostedPattern, block);
      r.Rejected? <==>
        && amountText.Some?
        && (|| !IsDecimalLiteral(amountText.value)
            || (!OnlyZeroDigits(amountText.value) && (dateText.None? || !dateOk(dateText.value))))
  {
    match ExtractTagValue(TrnAmtPattern, block)
    case None =>
    case Some(amountText) =>
      ParseDecimalAcceptsLiterals(amountText);
      if ParseDecimal(amountText).Some? {
        ParsedZeroIffZeroDigits(amountText);
      }
  }

  // ---------------------------------------------------------------------------
  // The whole document
  // ---------------------------------------------------------------------------

  /** The first `<BANKID>` digit run of the document, or "UNKNOWN" when there is none. */
  function BankCode(content: string): (code: string)
    ensures (exists i :: MatchesAt(BankIdPattern, content, i)) <==> code != "UNKNOWN"
    ensures code != "UNKNOWN" ==> code != [] && AllDigits(code)
  {
    match ExtractTagValue(BankIdPattern, content)
    case None => "UNKNOWN"
    case Some(v) =>
      assert v != [] by {
        var i := FirstMatchFrom(BankIdPattern, content, 0).value;
        assert GroupAt(BankIdPattern, content, i) != [];
        assert IsTrimmed(GroupAt(BankIdPattern, content, i)) by {
          var g := GroupAt(BankIdPattern, content, i);
          assert AllIn(Digits, g);
        }
        TrimOfTrimmed(GroupAt(BankIdPattern, content, i));
      }
      assert v != "UNKNOWN" by {
        assert !IsDigit('U');
      }
      v
  }

  /** The transaction a block contributes: one, or none when it is skipped. */
  function Emit(o: BlockOutcome): seq<TxRecord> {
    if o.Emitted? then [o.tx] else []
  }

  /** The transactions emitted by a sequence of blocks, in block order. */
  function Collect(blocks: seq<Block>, bankCode: string, dateOk: string -> bool): (r: seq<TxRecord>)
    ensures |r| <= |blocks|
  {
    if blocks == [] then []
    else Emit(ConvertBlock(blocks[0].body, bankCode, dateOk)) + Collect(blocks[1..], bankCode, dateOk)
  }

  lemma {:induction false} CollectCons(b: Block, rest: seq<Block>, bankCode: string, dateOk: string -> bool)
    ensures Collect([b] + rest, bankCode, dateOk) ==
      Emit(ConvertBlock(b.body, bankCode, dateOk)) + Collect(rest, bankCode, dateOk)
  {
    assert ([b] + rest)[1..] == rest;
  }

  /** One step of the scan: the first block found from `from` comes first, and the scan resumes at `from'`. */
  lemma {:induction false} BlocksStep(s: string, from: nat, b: Block, from': nat)
    requires from <= |s|
    requires NextBlock(s, from) == Some(b)
    requires from' == b.close + |BlockClose|
    ensures from < from' <= |s|
    ensures Blocks(s, from) == [b] + Blocks(s, from')
  {
  }

  /** One step of the scan: the first block found from `from` contributes first. */
  lemma {:induction false} CollectNext(s: string, from: nat, b: Block, from': nat, bankCode: string, dateOk: string -> bool)
    requires from <= |s|
    requires NextBlock(s, from) == Some(b)
    requires from' == b.close + |BlockClose|
    ensures from < from' <= |s|
    ensures Collect(Blocks(s, from), bankCode, dateOk) ==
      Emit(ConvertBlock(b.body, bankCode, dateOk)) + Collect(Blocks(s, from'), bankCode, dateOk)
  {
    BlocksStep(s, from, b, from');
    CollectCons(b, Blocks(s, from'), bankCode, dateOk);
  }

  /**
   * The loop step of `Parse`: after converting the block found from `from`,
   * the scan resumes at `from'`, just past its close tag, and the accumulated
   * result `done'` plus what the rest of the scan emits is still the whole result.
   */
  lemma {:induction false} ParseStep(s: string, from: nat, b: Block, bankCode: string, dateOk: string -> bool,
                  done: seq<TxRecord>, done': seq<TxRecord>, from': nat, spec: seq<TxRecord>)
    requires from <= |s|
    requires NextBlock(s, from) == Some(b)
    requires done + Collect(Blocks(s, from), bankCode, dateOk) == spec
    requires done' == done + Emit(ConvertBlock(b.body, bankCode, dateOk))
    requires from' == b.close + |BlockClose|
    ensures from < from' <= |s|
    ensures done' + Collect(Blocks(s, from'), bankCode, dateOk) == spec
  {
    CollectNext(s, from, b, from', bankCode, dateOk);
    ConcatAssoc(done, Emit(ConvertBlock(b.body, bankCode, dateOk)), Collect(Blocks(s, from'), bankCode, dateOk));
  }

  lemma {:induction false} ConcatAssoc<T>(a: seq<T>, b: seq<T>, c: seq<T>)
    ensures a + (b + c) == (a + b) + c
  {
  }

  /** The result of `parse` on a decoded document. */
  function ParseSpec(content: string, dateOk: string -> bool): (r: seq<TxRecord>)
    ensures |r| <= |Blocks(content, 0)|
    ensures forall t | t in r :: Emittable(t, BankCode(content), dateOk)
  {
    CollectEmittable(Blocks(content, 0), BankCode(content), dateOk);
    Collect(Blocks(content, 0), BankCode(content), dateOk)
  }

  /** Every emitted transaction is emittable, and no block emits more than one. */
  lemma {:induction false} CollectEmittable(blocks: seq<Block>, bankCode: string, dateOk: string -> bool)
    ensures forall t | t in Collect(blocks, bankCode, dateOk) :: Emittable(t, bankCode, dateOk)
    ensures |Collect(blocks, bankCode, dateOk)| <= |blocks|
    decreases |blocks|
  {
    if blocks != [] {
      CollectEmittable(blocks[1..], bankCode, dateOk);
    }
  }

  /** Collecting is a homomorphism: the blocks of `a` contribute first, then those of `b`. */
  lemma {:induction false} CollectAppend(a: seq<Block>, b: seq<Block>, bankCode: string, dateOk: string -> bool)
    ensures Collect(a + b, bankCode, dateOk) == Collect(a, bankCode, dateOk) + Collect(b, bankCode, dateOk)
    decreases |a|
  {
    if a == [] {
      assert a + b == b;
    } else {
      assert (a + b)[1..] == a[1..] + b;
      CollectAppend(a[1..], b, bankCode, dateOk);
      ConcatAssoc(Emit(ConvertBlock(a[0].body, bankCode, dateOk)), Collect(a[1..], bankCode, dateOk), Collect(b, bankCode, dateOk));
    }
  }

  /**
   * Each block contributes at its own position, whatever the other blocks do:
   * the output is what the blocks before it emit, then its own outcome, then
   * what the blocks after it emit.
   */
  lemma {:induction false} CollectAt(blocks: seq<Block>, k: nat, bankCode: string, dateOk: string -> bool)
    requires k < |blocks|
    ensures Collect(blocks, bankCode, dateOk) ==
      Collect(blocks[..k], bankCode, dateOk) + Emit(ConvertBlock(blocks[k].body, bankCode, dateOk)) + Collect(blocks[k + 1..], bankCode, dateOk)
  {
    assert blocks == blocks[..k] + ([blocks[k]] + blocks[k + 1..]);
    CollectAppend(blocks[..k], [blocks[k]] + blocks[k + 1..], bankCode, dateOk);
    CollectCons(blocks[k], blocks[k + 1..], bankCode, dateOk);
    ConcatAssoc(Collect(blocks[..k], bankCode, dateOk), Emit(ConvertBlock(blocks[k].body, bankCode, dateOk)), Collect(blocks[k + 1..], bankCode, dateOk));
  }

  /**
   * What `parse` returns: no transaction has a zero amount, every one carries
   * the document's bank code and no category, a present FITID is trimmed, the
   * date is a valid 14-digit stamp, and there are at most as many
   * transactions as blocks.
   */
  lemma {:induction false} ParseSpecEmittable(content: string, dateOk: string -> bool)
    ensures forall t | t in ParseSpec(content, dateOk) :: Emittable(t, BankCode(content), dateOk)
    ensures |ParseSpec(content, dateOk)| <= |Blocks(content, 0)|
  {
    CollectEmittable(Blocks(content, 0), BankCode(content), dateOk);
  }

  /**
   * One bad block never aborts the scan: a block that is skipped (no amount,
   * zero amount, or a conversion failure) removes only its own contribution,
   * and the other blocks' transactions still come out in document order.
   */
  lemma {:induction false} ParseSkipsOnlyBadBlock(content: string, dateOk: string -> bool, k: nat)
    requires k < |Blocks(content, 0)|
    requires !ConvertBlock(Blocks(content, 0)[k].body, BankCode(content), dateOk).Emitted?
    ensures var bs := Blocks(content, 0);
      ParseSpec(content, dateOk) == Collect(bs[..k] + bs[k + 1..], BankCode(content), dateOk)
  {
    var bs := Blocks(content, 0);
    CollectAt(bs, k, BankCode(content), dateOk);
    CollectAppend(bs[..k], bs[k + 1..], BankCode(content), dateOk);
  }

  /**
   * Order: a block that converts puts its transaction right after everything
   * the earlier blocks emit.
   */
  lemma {:induction false} ParseKeepsDocumentOrder(content: string, dateOk: string -> bool, k: nat)
    requires k < |Blocks(content, 0)|
    requires ConvertBlock(Blocks(content, 0)[k].body, BankCode(content), dateOk).Emitted?
    ensures var bs := Blocks(content, 0);
      var before := Collect(bs[..k], BankCode(content), dateOk);
      && |before| < |ParseSpec(content, dateOk)|
      && ParseSpec(content, dateOk)[|before|] == ConvertBlock(bs[k].body, BankCode(content), dateOk).tx
  {
    var bs := Blocks(content, 0);
    CollectAt(bs, k, BankCode(content), dateOk);
  }

  /** `parse`: scan the blocks in order, appending a new transaction for each one that converts. */
  method Parse(content: string, dateOk: string -> bool) returns (txs: seq<BankTransaction>)
    ensures Records(txs) == ParseSpec(content, dateOk)
    ensures Distinct(txs)
    ensures forall t | t in txs :: fresh(t)
  {
    var bankCode := BankCode(content);
    txs := [];
    var pos := 0;
    ghost var spec := ParseSpec(content, dateOk);
    ghost var recs: seq<TxRecord> := [];
    while true
      invariant pos <= |content|
      invariant Records(txs) == recs
      invariant recs + Collect(Blocks(content, pos), bankCode, dateOk) == spec
      invariant Distinct(txs)
      invariant forall t | t in txs :: fresh(t)
      decreases |content| - pos
    {
      var next := NextBlock(content, pos);
      if next.None? {
        assert Blocks(content, pos) == [];
        break;
      }
      var block := next.value;
      var outcome := ConvertBlock(block.body, bankCode, dateOk);
      var pos' := block.close + |BlockClose|;
      ghost var recs' := recs + Emit(outcome);
      ParseStep(content, pos, block, bankCode, dateOk, recs, recs', pos', spec);
      if outcome.Emitted? {
        txs := AppendNew(txs, outcome.tx);
      }
      pos, recs := pos', recs';
    }
  }
}
