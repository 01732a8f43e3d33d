/**
 * Issuer detection and field extraction of the statement parser: the ordered
 * table of supported banks and `parse_statement`.
 */
module Statement {
  import opened Wrappers
  import opened Text
  import opened Json

  /**
   * One entry of the bank table: its key, the issuer name (a plain literal,
   * searched for ignoring case) and the regular expressions of the four other
   * fields, in the table's order.
   */
  datatype Bank = Bank(key: string, issuer: string, fields: seq<(string, string)>)

  /**
   * The regular-expression engine: `search(pattern, text)` is capture group 1 of
   * the first match of `pattern` in `text` (case ignored), or None when there is
   * no match.
   */
  type Matcher = (string, string) -> Option<string>

  const NOT_FOUND := "Not Found"
  const UNSUPPORTED := "Could not determine the credit card issuer. This bank is not supported."

  /** The keys that follow `issuer` in every bank's entry, in order. */
  const FIELD_KEYS: seq<string> := ["card_number", "due_date", "total_due", "statement_period"]

  /** The five keys of a successful extraction. */
  const RESULT_KEYS: set<string> := {"issuer", "card_number", "due_date", "total_due", "statement_period"}

  /** The supported banks, in the order in which they are tried. */
  const PATTERNS: seq<Bank> := [
    Bank("hdfc", "HDFC Bank", [
      ("card_number", "Card Number\\s*:\\s*XXXX XXXX XXXX (\\d{4})"),
      ("due_date", "Payment Due Date\\s*:\\s*(\\d{2}/\\d{2}/\\d{4})"),
      ("total_due", "Total Amount Due\\s*[|:\\s]*([\\d,]+\\.\\d{2})"),
      ("statement_period", "Statement Period\\s*:\\s*(\\d{2}/\\d{2}/\\d{4} to \\d{2}/\\d{2}/\\d{4})")]),
    Bank("icici", "ICICI Bank", [
      ("card_number", "Card No\\.\\s*:\\s*XXXX XXXX XXXX (\\d{4})"),
      ("due_date", "Due Date\\s*:\\s*(\\d{2}-\\w{3}-\\d{4})"),
      ("total_due", "Total Amount Due\\s*[:\\s]*([\\d,]+\\.\\d{2})"),
      ("statement_period", "Statement Date\\s*:\\s*(\\d{2}-\\w{3}-\\d{4})")]),
    Bank("sbi", "SBI Card", [
      ("card_number", "CARD NO\\.\\s*:\\s*XXXX XXXX XXXX (\\d{4})"),
      ("due_date", "Payment Due Date\\s*(\\d{2} \\w{3} \\d{2})"),
      ("total_due", "Total Amount Due\\s*Cr\\s*([\\d,]+\\.\\d{2})"),
      ("statement_period", "Statement Date\\s*(\\d{2} \\w{3} \\d{2})")]),
    Bank("axis", "Axis Bank", [
      ("card_number", "Card Number\\s*XXXX XXXX XXXX (\\d{4})"),
      ("due_date", "Payment Due Date\\s*:\\s*(\\d{2}-\\w{3}-\\d{4})"),
      ("total_due", "Total Amount Due\\s*[:\\s]*Rs\\.\\s*([\\d,]+\\.\\d{2})"),
      ("statement_period", "Statement Date\\s*:\\s*(\\d{2}-\\w{3}-\\d{4})")]),
    Bank("amex", "American Express", [
      ("card_number", "Cardmember\\s*:.*\\s*(\\d{5})"),
      ("due_date", "Please Pay By\\s*:\\s*(\\w+\\s\\d{1,2},\\s\\d{4})"),
      ("total_due", "New Balance\\s*[:\\s]*\\$?([\\d,]+\\.\\d{2})"),
      ("statement_period", "Statement date\\s*:\\s*(\\w+\\s\\d{1,2},\\s\\d{4})")])
  ]

  /** A bank entry whose field patterns carry the four field keys, in order. */
  predicate WellShaped(bank: Bank) {
    |bank.fields| == 4 && forall j :: 0 <= j < 4 ==> bank.fields[j].0 == FIELD_KEYS[j]
  }

  /** Every entry of the table has the four field keys, in the same order. */
  lemma TableShape()
    ensures |PATTERNS| == 5
    ensures forall i :: 0 <= i < |PATTERNS| ==> WellShaped(PATTERNS[i])
  {
  }

  /** The issuer name of `bank` occurs in `text`, ignoring case. */
  predicate IssuerIn(text: string, bank: Bank) {
    ContainsIgnoringCase(text, bank.issuer)
  }

  /** The index of the first bank of `banks`, from index `k` on, whose issuer occurs in `text`. */
  function DetectFrom(banks: seq<Bank>, text: string, k: nat): (r: Option<nat>)
    decreases |banks| - k
    ensures r.Some? ==> k <= r.value < |banks| && IssuerIn(text, banks[r.value])
    ensures r.Some? ==> forall j :: k <= j < r.value ==> !IssuerIn(text, banks[j])
    ensures r.None? ==> forall j :: k <= j < |banks| ==> !IssuerIn(text, banks[j])
  {
    if k >= |banks| then None
    else if IssuerIn(text, banks[k]) then Some(k)
    else DetectFrom(banks, text, k + 1)
  }

  /** The index of the first bank of `banks` whose issuer occurs in `text`. */
  function Detect(banks: seq<Bank>, text: string): Option<nat> {
    DetectFrom(banks, text, 0)
  }

  /** The first matching bank is the only index Detect can return, and None means no bank matches. */
  lemma DetectIsFirstMatch(banks: seq<Bank>, text: string)
    ensures forall i :: 0 <= i < |banks| ==>
      (Detect(banks, text) == Some(i) <==>
        IssuerIn(text, banks[i]) && forall j :: 0 <= j < i ==> !IssuerIn(text, banks[j]))
    ensures Detect(banks, text).None? <==> forall j :: 0 <= j < |banks| ==> !IssuerIn(text, banks[j])
  {
  }

  /** Once a bank matches, the banks after it are never consulted. */
  lemma {:induction false} DetectIgnoresLaterBanks(banks: seq<Bank>, later: seq<Bank>, text: string, k: nat)
    requires DetectFrom(banks, text, k).Some?
    ensures DetectFrom(banks + later, text, k) == DetectFrom(banks, text, k)
    decreases |banks| - k
  {
    if !IssuerIn(text, banks[k]) {
      DetectIgnoresLaterBanks(banks, later, text, k + 1);
    }
  }

  /** The value stored for one field: the stripped capture, or 'Not Found'. */
  function FieldValue(m: Option<string>): string {
    match m
    case Some(g) => Strip(g)
    case None => NOT_FOUND
  }

  /** The dictionary after the first `n` field patterns of `bank` have been tried. */
  function Filled(bank: Bank, text: string, search: Matcher, n: nat): Object
    requires n <= |bank.fields|
  {
    if n == 0 then map["issuer" := bank.issuer]
    else
      var field := bank.fields[n - 1];
      Filled(bank, text, search, n - 1)[field.0 := FieldValue(search(field.1, text))]
  }

  /** The result `parse_statement` returns for `text`. */
  function StatementData(text: string, search: Matcher): Object {
    match Detect(PATTERNS, text)
    case None => ErrorBody(UNSUPPORTED)
    case Some(i) => Filled(PATTERNS[i], text, search, |PATTERNS[i].fields|)
  }

  /** The first half of `parse_statement`: the index of the first bank whose issuer occurs in `text`. */
  method DetectIssuer(text: string) returns (detected: Option<nat>)
    ensures detected == Detect(PATTERNS, text)
  {
    detected := None;
    var k := 0;
    while k < |PATTERNS|
      invariant 0 <= k <= |PATTERNS|
      invariant detected.None? ==> DetectFrom(PATTERNS, text, k) == Detect(PATTERNS, text)
      invariant detected.Some? ==> detected == Detect(PATTERNS, text)
    {
      if IssuerIn(text, PATTERNS[k]) {
        detected := Some(k);
        break;
      }
      k := k + 1;
    }
  }

  /**
   * The second half of `parse_statement`: start from the canonical issuer name and
   * add one entry per field pattern of the detected bank.
   */
  method ExtractFields(bank: Bank, text: string, search: Matcher) returns (data: Object)
    ensures data == Filled(bank, text, search, |bank.fields|)
  {
    data := map["issuer" := bank.issuer];
    var n := 0;
    while n < |bank.fields|
      invariant n <= |bank.fields|
      invariant data == Filled(bank, text, search, n)
    {
      var key, pattern := bank.fields[n].0, bank.fields[n].1;
      var m := search(pattern, text);
      var value := if m.Some? then Strip(m.value) else NOT_FOUND;
      assert value == FieldValue(search(pattern, text));
      data := data[key := value];
      n := n + 1;
    }
  }

  /** `parse_statement`: detect the issuer, then extract that bank's fields. */
  method ParseStatement(text: string, search: Matcher) returns (data: Object)
    ensures data == StatementData(text, search)
  {
    var detected := DetectIssuer(text);
    if detected.None? {
      return ErrorBody(UNSUPPORTED);
    }
    data := ExtractFields(PATTERNS[detected.value], text, search);
  }

  /** The field keys of `fields` are pairwise distinct and none is `issuer`. */
  predicate DistinctKeys(fields: seq<(string, string)>) {
    (forall j :: 0 <= j < |fields| ==> fields[j].0 != "issuer") &&
    (forall j, l :: 0 <= j < l < |fields| ==> fields[j].0 != fields[l].0)
  }

  /** The keys of the first `n` field patterns. */
  function KeysOf(fields: seq<(string, string)>, n: nat): set<string>
    requires n <= |fields|
  {
    if n == 0 then {} else KeysOf(fields, n - 1) + {fields[n - 1].0}
  }

  /** After `n` patterns the dictionary holds `issuer` and exactly the first `n` keys. */
  lemma {:induction false} FilledKeys(bank: Bank, text: string, search: Matcher, n: nat)
    requires n <= |bank.fields|
    ensures Filled(bank, text, search, n).Keys == {"issuer"} + KeysOf(bank.fields, n)
    ensures forall j :: 0 <= j < n ==> bank.fields[j].0 in Filled(bank, text, search, n)
  {
    if n > 0 {
      FilledKeys(bank, text, search, n - 1);
    }
  }

  /** After `n` patterns, the key of pattern `j < n` holds that pattern's value. */
  lemma {:induction false} FilledValue(bank: Bank, text: string, search: Matcher, n: nat, j: nat)
    requires j < n <= |bank.fields| && DistinctKeys(bank.fields)
    ensures bank.fields[j].0 in Filled(bank, text, search, n)
    ensures Filled(bank, text, search, n)[bank.fields[j].0] == FieldValue(search(bank.fields[j].1, text))
  {
    var field := bank.fields[n - 1];
    var prev := Filled(bank, text, search, n - 1);
    assert Filled(bank, text, search, n) == prev[field.0 := FieldValue(search(field.1, text))];
    if j < n - 1 {
      FilledValue(bank, text, search, n - 1, j);
      assert bank.fields[j].0 != field.0;
    }
  }

  /**
   * After `n` patterns `issuer` is the canonical name and each key holds the value
   * of its own pattern: a later pattern never overwrites an earlier one.
   */
  lemma {:induction false} FilledContents(bank: Bank, text: string, search: Matcher, n: nat)
    requires n <= |bank.fields| && DistinctKeys(bank.fields)
    ensures Filled(bank, text, search, n).Keys == {"issuer"} + KeysOf(bank.fields, n)
    ensures Filled(bank, text, search, n)["issuer"] == bank.issuer
    ensures forall j :: 0 <= j < n ==> bank.fields[j].0 in Filled(bank, text, search, n)
    ensures forall j :: 0 <= j < n ==>
      Filled(bank, text, search, n)[bank.fields[j].0] == FieldValue(search(bank.fields[j].1, text))
  {
    FilledKeys(bank, text, search, n);
    if n > 0 {
      FilledContents(bank, text, search, n - 1);
    }
    forall j | 0 <= j < n
      ensures bank.fields[j].0 in Filled(bank, text, search, n)
      ensures Filled(bank, text, search, n)[bank.fields[j].0] == FieldValue(search(bank.fields[j].1, text))
    {
      FilledValue(bank, text, search, n, j);
    }
  }

  /**
   * When a bank is detected the result has exactly the five keys, `issuer` is the
   * bank's canonical name, and every other field is its pattern's stripped
   * capture or 'Not Found'.
   */
  lemma DetectedStatement(text: string, search: Matcher, i: nat)
    requires Detect(PATTERNS, text) == Some(i)
    ensures StatementData(text, search).Keys == RESULT_KEYS
    ensures StatementData(text, search)["issuer"] == PATTERNS[i].issuer
    ensures forall j :: 0 <= j < 4 ==>
      StatementData(text, search)[FIELD_KEYS[j]] == FieldValue(search(PATTERNS[i].fields[j].1, text))
  {
    TableShape();
    ExtractedContents(PATTERNS[i], text, search);
  }

  /** The same facts for any well-shaped bank entry. */
  lemma ExtractedContents(bank: Bank, text: string, search: Matcher)
    requires WellShaped(bank)
    ensures Filled(bank, text, search, 4).Keys == RESULT_KEYS
    ensures Filled(bank, text, search, 4)["issuer"] == bank.issuer
    ensures forall j :: 0 <= j < 4 ==>
      Filled(bank, text, search, 4)[FIELD_KEYS[j]] == FieldValue(search(bank.fields[j].1, text))
  {
    assert DistinctKeys(bank.fields);
    FilledContents(bank, text, search, 4);
    var f := bank.fields;
    assert KeysOf(f, 2) == {"card_number", "due_date"} by {
      assert KeysOf(f, 1) == KeysOf(f, 0) + {f[0].0};
    }
    assert KeysOf(f, 4) == KeysOf(f, 2) + {"total_due", "statement_period"} by {
      assert KeysOf(f, 3) == KeysOf(f, 2) + {f[2].0};
    }
  }

  /**
   * The result carries an `error` key exactly when no supported issuer occurs in
   * the text, and then it is the one-entry "not supported" body.
   */
  lemma UnsupportedStatement(text: string, search: Matcher)
    ensures "error" in StatementData(text, search) <==>
      forall j :: 0 <= j < |PATTERNS| ==> !IssuerIn(text, PATTERNS[j])
    ensures "error" in StatementData(text, search) ==> StatementData(text, search) == ErrorBody(UNSUPPORTED)
  {
    match Detect(PATTERNS, text)
    case None =>
    case Some(i) =>
      DetectedStatement(text, search, i);
      assert "error" !in RESULT_KEYS;
      assert IssuerIn(text, PATTERNS[i]);
  }

  /**
   * A statement that names HDFC Bank, in any letter case, is read with HDFC's
   * patterns, whatever else it names.
   */
  lemma HdfcWins(text: string, i: int)
    requires OccursAt(Lower(text), "hdfc bank", i)
    ensures Detect(PATTERNS, text) == Some(0)
  {
    assert Lower("HDFC Bank") == "hdfc bank";
  }
}
