/** A transaction read from a statement, whose category is filled in later. */
module BankTransactions {
  import opened Wrappers
  import opened Decimals

  /** The value of a `BankTransaction` at one moment. `postedAt` is the 14-digit `yyyyMMddHHmmss` stamp. */
  datatype TxRecord = TxRecord(
    fitId: Option<string>,
    bankCode: string,
    postedAt: string,
    amount: Decimal,
    description: string,
    trnType: Option<string>,
    categoryId: Option<string>)

  /** `BankTransaction`: every field but the category is fixed once the parser builds it. */
  class BankTransaction {
    const fitId: Option<string>
    const bankCode: string
    const postedAt: string
    const amount: Decimal
    const description: string
    const trnType: Option<string>
    var categoryId: Option<string>

    constructor (r: TxRecord)
      ensures Record() == r
    {
      fitId := r.fitId;
      bankCode := r.bankCode;
      postedAt := r.postedAt;
      amount := r.amount;
      description := r.description;
      trnType := r.trnType;
      categoryId := r.categoryId;
    }

    function Record(): TxRecord
      reads this
    {
      TxRecord(fitId, bankCode, postedAt, amount, description, trnType, categoryId)
    }

    /** The fields fixed at construction agree with `r`. */
    predicate FixedFieldsAs(r: TxRecord) {
      && fitId == r.fitId && bankCode == r.bankCode && postedAt == r.postedAt
      && amount == r.amount && description == r.description && trnType == r.trnType
    }

    /** `setCategoryId`: only the category changes. */
    method SetCategoryId(c: Option<string>)
      modifies this
      ensures Record() == old(Record()).(categoryId := c)
    {
      categoryId := c;
    }
  }

  /** The current values of a list of transactions. */
  function Records(txs: seq<BankTransaction>): (rs: seq<TxRecord>)
    reads set t | t in txs
    ensures |rs| == |txs|
    ensures forall i | 0 <= i < |txs| :: rs[i] == txs[i].Record()
  {
    if txs == [] then [] else [txs[0].Record()] + Records(txs[1..])
  }

  lemma {:induction false} RecordsAppend(txs: seq<BankTransaction>, t: BankTransaction)
    ensures Records(txs + [t]) == Records(txs) + [t.Record()]
  {
  }

  /** `transactions.add(new BankTransaction(...))`: a fresh object joins the end of the list. */
  method AppendNew(txs: seq<BankTransaction>, r: TxRecord) returns (txs': seq<BankTransaction>)
    requires Distinct(txs)
    ensures |txs'| == |txs| + 1 && txs' == txs + [txs'[|txs|]] && fresh(txs'[|txs|])
    ensures Records(txs') == old(Records(txs)) + [r]
    ensures Distinct(txs')
  {
    ghost var before := Records(txs);
    var t := new BankTransaction(r);
    assert Records(txs) == before;
    RecordsAppend(txs, t);
    txs' := txs + [t];
  }

  /** The descriptions of a list of transaction values, in list order. */
  function DescriptionsOf(recs: seq<TxRecord>): seq<string> {
    seq(|recs|, i requires 0 <= i < |recs| => recs[i].description)
  }

  /** No object appears twice in the list. */
  predicate Distinct(txs: seq<BankTransaction>) {
    forall i, j | 0 <= i < j < |txs| :: txs[i] != txs[j]
  }
}
