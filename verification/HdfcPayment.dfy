/** The payment request sent to the gateway and the response read from it, between encryption
    and decryption. */
module HdfcPayment {
  import opened Options
  import opened PairText

  datatype Config = Config(merchantId: string, redirectBase: string)

  /** Billing details are empty when the customer gave none. */
  datatype Params = Params(
    orderId: string,
    amount: string,
    billingName: string,
    billingEmail: string,
    billingPhone: string,
    merchantRef: string)

  const RESULT_PATH := "/payment/hdfc" + "/result?status" + "=cancelled"

  function CancelUrl(c: Config, p: Params): string {
    c.redirectBase + RESULT_PATH + "&" + Segment(("orderId", p.orderId))
  }

  function IfGiven(key: string, value: string): seq<(string, string)> {
    if value == "" then [] else [(key, value)]
  }

  function Opening(c: Config, p: Params): seq<(string, string)> {
    [("merchant_id", c.merchantId), ("order_id", p.orderId), ("amount", p.amount), ("currency", "INR"),
     ("redirect_url", c.redirectBase + "/payment/hdfc/response")]
  }

  function Closing(p: Params): seq<(string, string)> {
    [("language", "EN")]
    + IfGiven("billing_name", p.billingName)
    + IfGiven("billing_email", p.billingEmail)
    + IfGiven("billing_tel", p.billingPhone)
    + [("billing_country", "India"), ("merchant_param1", p.merchantRef)]
  }

  /** The pairs as the request lists them. */
  function Fields(c: Config, p: Params): seq<(string, string)> {
    Opening(c, p) + [("cancel_url", CancelUrl(c, p))] + Closing(p)
  }

  function RequestText(c: Config, p: Params): string {
    Write(Fields(c, p))
  }

  /** The pairs a reader finds: the cancel address is cut at its ampersand and leaves a pair of
      its own behind. */
  function FieldsRead(c: Config, p: Params): seq<(string, string)> {
    Opening(c, p) + [("cancel_url", c.redirectBase + RESULT_PATH), ("orderId", p.orderId)] + Closing(p)
  }

  predicate PlainParams(c: Config, p: Params) {
    && PlainValue(c.merchantId) && PlainValue(c.redirectBase)
    && PlainValue(p.orderId) && PlainValue(p.amount) && PlainValue(p.merchantRef)
    && PlainValue(p.billingName) && PlainValue(p.billingEmail) && PlainValue(p.billingPhone)
  }

  lemma SegmentsAppend(a: seq<(string, string)>, b: seq<(string, string)>)
    ensures Segments(a + b) == Segments(a) + Segments(b)
  {
  }

  lemma WriteAppend(a: seq<(string, string)>, b: seq<(string, string)>)
    requires a != [] && b != []
    ensures Write(a + b) == Write(a) + "&" + Write(b)
  {
    SegmentsAppend(a, b);
    JoinAppend(Segments(a), Segments(b), '&');
  }

  lemma WriteOne(pair: (string, string))
    ensures Write([pair]) == Segment(pair)
  {
  }

  /** The two lists of pairs are the same text. */
  lemma SameText(c: Config, p: Params)
    ensures RequestText(c, p) == Write(FieldsRead(c, p))
  {
    var cut := [("cancel_url", c.redirectBase + RESULT_PATH)];
    var extra := [("orderId", p.orderId)];
    var whole := [("cancel_url", CancelUrl(c, p))];
    WriteOne(cut[0]);
    WriteOne(extra[0]);
    WriteOne(whole[0]);
    WriteAppend(cut, extra);
    assert Write(cut + extra) == Write(whole);
    hide Write, Segments, Segment, CancelUrl;
    WriteAppend(Opening(c, p), cut + extra);
    WriteAppend(Opening(c, p), whole);
    WriteAppend(Opening(c, p) + (cut + extra), Closing(p));
    WriteAppend(Opening(c, p) + whole, Closing(p));
    assert FieldsRead(c, p) == Opening(c, p) + (cut + extra) + Closing(p);
  }

  predicate AllPlain(pairs: seq<(string, string)>) {
    forall i :: 0 <= i < |pairs| ==> Plain(pairs[i])
  }

  lemma AllPlainAppend(a: seq<(string, string)>, b: seq<(string, string)>)
    requires AllPlain(a) && AllPlain(b)
    ensures AllPlain(a + b)
  {
  }

  lemma OpeningPlain(c: Config, p: Params)
    requires PlainParams(c, p)
    ensures AllPlain(Opening(c, p))
  {
  }

  lemma CancelPlain(c: Config, p: Params)
    requires PlainParams(c, p)
    ensures AllPlain([("cancel_url", c.redirectBase + RESULT_PATH), ("orderId", p.orderId)])
  {
    assert PlainKey("cancel_url") && PlainKey("orderId");
    ResultPathPlain();
    hide PlainKey;
    PlainValueAppend(c.redirectBase, RESULT_PATH);
  }

  lemma ResultPathPlain()
    ensures PlainValue(RESULT_PATH)
  {
    PathPlain();
    QueryPlain();
    StatusPlain();
    hide PlainValue;
    PlainValueAppend("/payment/hdfc", "/result?status");
    PlainValueAppend("/payment/hdfc" + "/result?status", "=cancelled");
  }

  lemma PathPlain()
    ensures PlainValue("/payment/hdfc")
  {
  }

  lemma QueryPlain()
    ensures PlainValue("/result?status")
  {
  }

  lemma StatusPlain()
    ensures PlainValue("=cancelled")
  {
  }

  lemma PlainValueAppend(a: string, b: string)
    requires PlainValue(a) && PlainValue(b)
    ensures PlainValue(a + b)
  {
  }

  lemma GivenPlain(key: string, value: string)
    requires PlainKey(key) && PlainValue(value)
    ensures AllPlain(IfGiven(key, value))
  {
  }

  lemma ClosingPlain(c: Config, p: Params)
    requires PlainParams(c, p)
    ensures AllPlain(Closing(p))
  {
    var language := [("language", "EN")];
    var last := [("billing_country", "India"), ("merchant_param1", p.merchantRef)];
    assert AllPlain(language) && AllPlain(last);
    GivenPlain("billing_name", p.billingName);
    GivenPlain("billing_email", p.billingEmail);
    GivenPlain("billing_tel", p.billingPhone);
    hide AllPlain, IfGiven;
    var name, email, phone := IfGiven("billing_name", p.billingName), IfGiven("billing_email", p.billingEmail),
                              IfGiven("billing_tel", p.billingPhone);
    AllPlainAppend(language, name);
    AllPlainAppend(language + name, email);
    AllPlainAppend(language + name + email, phone);
    AllPlainAppend(language + name + email + phone, last);
  }

  lemma FieldsReadPlain(c: Config, p: Params)
    requires PlainParams(c, p)
    ensures AllPlain(FieldsRead(c, p))
  {
    OpeningPlain(c, p);
    CancelPlain(c, p);
    ClosingPlain(c, p);
    hide AllPlain, Opening, Closing;
    var cancel := [("cancel_url", c.redirectBase + RESULT_PATH), ("orderId", p.orderId)];
    AllPlainAppend(Opening(c, p), cancel);
    AllPlainAppend(Opening(c, p) + cancel, Closing(p));
  }

  /** A key that is not repeated later keeps its value. */
  lemma {:induction false} LastWins(before: seq<(string, string)>, pair: (string, string), later: seq<(string, string)>)
    requires forall i :: 0 <= i < |later| ==> later[i].0 != pair.0
    ensures var m := MapOf(before + [pair] + later); pair.0 in m && m[pair.0] == pair.1
  {
    var all := before + [pair] + later;
    if later == [] {
      assert all[|all| - 1] == pair && all[..|all| - 1] == before;
    } else {
      var n := |later| - 1;
      LastWins(before, pair, later[..n]);
      assert all[|all| - 1] == later[n] && all[..|all| - 1] == before + [pair] + later[..n];
    }
  }

  /** No closing key has the length of "cancel_url" or of "orderId". */
  lemma ClosingKeys(p: Params)
    ensures forall i :: 0 <= i < |Closing(p)| ==> |Closing(p)[i].0| != 10 && |Closing(p)[i].0| != 7
  {
  }

  lemma CutUrlReadBack(c: Config, p: Params)
    ensures var m := MapOf(FieldsRead(c, p)); "cancel_url" in m && m["cancel_url"] == c.redirectBase + RESULT_PATH
  {
    ClosingKeys(p);
    var cut := ("cancel_url", c.redirectBase + RESULT_PATH);
    var extra := ("orderId", p.orderId);
    hide MapOf, Closing, Opening;
    LastWins(Opening(c, p), cut, [extra] + Closing(p));
    assert FieldsRead(c, p) == Opening(c, p) + [cut] + ([extra] + Closing(p));
  }

  lemma ExtraReadBack(c: Config, p: Params)
    ensures var m := MapOf(FieldsRead(c, p)); "orderId" in m && m["orderId"] == p.orderId
  {
    ClosingKeys(p);
    var cut := ("cancel_url", c.redirectBase + RESULT_PATH);
    var extra := ("orderId", p.orderId);
    hide MapOf, Closing, Opening;
    LastWins(Opening(c, p) + [cut], extra, Closing(p));
    assert FieldsRead(c, p) == Opening(c, p) + [cut] + [extra] + Closing(p);
  }

  lemma ReferenceReadBack(c: Config, p: Params)
    ensures var m := MapOf(FieldsRead(c, p)); "merchant_param1" in m && m["merchant_param1"] == p.merchantRef
  {
    hide MapOf;
    var all := FieldsRead(c, p);
    assert all[|all| - 1] == ("merchant_param1", p.merchantRef);
    LastWins(all[..|all| - 1], all[|all| - 1], []);
    assert all == all[..|all| - 1] + [all[|all| - 1]] + [];
  }

  /** Reading a request back, for all plain parameters: the cancel address comes back cut, a
      key the request never listed comes back with the order id, and nothing else is changed. */
  lemma RequestReadBack(c: Config, p: Params)
    requires PlainParams(c, p)
    ensures Parse(RequestText(c, p)) == Some(MapOf(FieldsRead(c, p)))
    ensures var m := MapOf(FieldsRead(c, p));
      && "cancel_url" in m && m["cancel_url"] == c.redirectBase + RESULT_PATH != CancelUrl(c, p)
      && "orderId" in m && m["orderId"] == p.orderId
      && "merchant_param1" in m && m["merchant_param1"] == p.merchantRef
  {
    assert |CancelUrl(c, p)| > |c.redirectBase + RESULT_PATH|;
    SameText(c, p);
    FieldsReadPlain(c, p);
    ReadUndoesWrite(FieldsRead(c, p));
    CutUrlReadBack(c, p);
    ExtraReadBack(c, p);
    ReferenceReadBack(c, p);
    hide *;
  }

  // ---------------------------------------------------------------------------------------
  // Every field of the request
  // ---------------------------------------------------------------------------------------

  /** Tells the keys of the request apart: their length and first letter. */
  function Rank(key: string): int {
    if key == "" then 0 else 1000 * |key| + key[0] as int
  }

  lemma Ranks()
    ensures Rank("merchant_id") == 11109 && Rank("order_id") == 8111 && Rank("amount") == 6097
    ensures Rank("currency") == 8099 && Rank("redirect_url") == 12114 && Rank("cancel_url") == 10099
    ensures Rank("orderId") == 7111 && Rank("language") == 8108 && Rank("billing_name") == 12098
    ensures Rank("billing_email") == 13098 && Rank("billing_tel") == 11098 && Rank("billing_country") == 15098
    ensures Rank("merchant_param1") == 15109
  {
  }

  predicate NoRank(pairs: seq<(string, string)>, rank: int) {
    forall i :: 0 <= i < |pairs| ==> Rank(pairs[i].0) != rank
  }

  lemma NoRankAppend(a: seq<(string, string)>, b: seq<(string, string)>, rank: int)
    ensures NoRank(a + b, rank) <==> NoRank(a, rank) && NoRank(b, rank)
  {
    assert forall i :: 0 <= i < |a| ==> (a + b)[i] == a[i];
    assert forall i :: 0 <= i < |b| ==> (a + b)[|a| + i] == b[i];
  }

  /** A key that is listed once has its value, and one that is not listed is absent. */
  lemma ListedOnce(before: seq<(string, string)>, pair: (string, string), later: seq<(string, string)>)
    requires NoRank(later, Rank(pair.0))
    ensures var m := MapOf(before + ([pair] + later)); pair.0 in m && m[pair.0] == pair.1
  {
    LastWins(before, pair, later);
    assert before + [pair] + later == before + ([pair] + later);
  }

  lemma {:induction false} NotListed(pairs: seq<(string, string)>, key: string)
    requires NoRank(pairs, Rank(key))
    ensures key !in MapOf(pairs)
  {
    if pairs != [] {
      NotListed(pairs[..|pairs| - 1], key);
    }
  }

  predicate Holds(m: Pairs, key: string, value: string) {
    key in m && m[key] == value
  }

  /** Present exactly when it was given. */
  predicate Given(m: Pairs, key: string, value: string) {
    if value == "" then key !in m else Holds(m, key, value)
  }

  function Billing(p: Params): seq<(string, string)> {
    IfGiven("billing_name", p.billingName)
    + (IfGiven("billing_email", p.billingEmail) + IfGiven("billing_tel", p.billingPhone))
  }

  function Address(c: Config, p: Params): seq<(string, string)> {
    [("cancel_url", c.redirectBase + RESULT_PATH), ("orderId", p.orderId)]
  }

  function Ending(p: Params): seq<(string, string)> {
    [("billing_country", "India"), ("merchant_param1", p.merchantRef)]
  }

  lemma FieldsSplit(c: Config, p: Params)
    ensures FieldsRead(c, p) == Opening(c, p) + (Address(c, p) + ([("language", "EN")] + (Billing(p) + Ending(p))))
  {
  }

  /** The ranks that occur after the opening. */
  lemma LaterRanks(c: Config, p: Params, rank: int)
    ensures rank !in {10099, 7111, 8108, 12098, 13098, 11098, 15098, 15109} ==>
      NoRank(Address(c, p) + ([("language", "EN")] + (Billing(p) + Ending(p))), rank)
    ensures rank !in {12098, 13098, 11098, 15098, 15109} ==> NoRank(Billing(p) + Ending(p), rank)
    ensures rank !in {12098, 13098, 11098} ==> NoRank(Billing(p), rank)
    ensures rank !in {15098, 15109} ==> NoRank(Ending(p), rank)
  {
    Ranks();
    hide Rank;
    NoRankAppend(Address(c, p), [("language", "EN")] + (Billing(p) + Ending(p)), rank);
    NoRankAppend([("language", "EN")], Billing(p) + Ending(p), rank);
    NoRankAppend(Billing(p), Ending(p), rank);
  }

  lemma OpeningCarried(c: Config, p: Params)
    ensures var m := MapOf(FieldsRead(c, p));
      && Holds(m, "merchant_id", c.merchantId) && Holds(m, "order_id", p.orderId) && Holds(m, "amount", p.amount)
      && Holds(m, "currency", "INR") && Holds(m, "redirect_url", c.redirectBase + "/payment/hdfc/response")
  {
    FieldsSplit(c, p);
    Ranks();
    var all := Opening(c, p);
    var later := Address(c, p) + ([("language", "EN")] + (Billing(p) + Ending(p)));
    assert Rank(all[0].0) == 11109 && Rank(all[1].0) == 8111 && Rank(all[2].0) == 6097 && Rank(all[3].0) == 8099
        && Rank(all[4].0) == 12114;
    forall i | 0 <= i < 5 ensures Holds(MapOf(FieldsRead(c, p)), all[i].0, all[i].1) {
      LaterRanks(c, p, Rank(all[i].0));
      OpeningAt(all, i, later);
    }
    hide Rank, MapOf, FieldsRead;
  }

  lemma OpeningAt(all: seq<(string, string)>, i: nat, later: seq<(string, string)>)
    requires i < |all| && NoRank(later, Rank(all[i].0))
    requires forall j :: i < j < |all| ==> Rank(all[j].0) != Rank(all[i].0)
    ensures Holds(MapOf(all + later), all[i].0, all[i].1)
  {
    NoRankAppend(all[i + 1..], later, Rank(all[i].0));
    ListedOnce(all[..i], all[i], all[i + 1..] + later);
    assert all[..i] + ([all[i]] + (all[i + 1..] + later)) == all + later;
  }

  lemma LanguageCarried(c: Config, p: Params)
    ensures Holds(MapOf(FieldsRead(c, p)), "language", "EN")
  {
    FieldsSplit(c, p);
    Ranks();
    LaterRanks(c, p, 8108);
    hide Rank, MapOf, FieldsRead, Billing, Ending;
    var before, later := Opening(c, p) + Address(c, p), Billing(p) + Ending(p);
    ListedOnce(before, ("language", "EN"), later);
    assert before + ([("language", "EN")] + later) == FieldsRead(c, p);
  }

  /** A field that may be missing, between fields of other ranks. */
  lemma GivenCarried(before: seq<(string, string)>, key: string, value: string, later: seq<(string, string)>)
    requires NoRank(before, Rank(key)) && NoRank(later, Rank(key))
    ensures Given(MapOf(before + (IfGiven(key, value) + later)), key, value)
  {
    if value == "" {
      NoRankAppend(before, later, Rank(key));
      NotListed(before + later, key);
      assert IfGiven(key, value) + later == later;
    } else {
      ListedOnce(before, (key, value), later);
    }
  }

  lemma BillingCarried(c: Config, p: Params)
    ensures var m := MapOf(FieldsRead(c, p));
      && Given(m, "billing_name", p.billingName)
      && Given(m, "billing_email", p.billingEmail)
      && Given(m, "billing_tel", p.billingPhone)
  {
    FieldsSplit(c, p);
    var front := Opening(c, p) + (Address(c, p) + [("language", "EN")]);
    var name, email, phone := IfGiven("billing_name", p.billingName), IfGiven("billing_email", p.billingEmail),
                              IfGiven("billing_tel", p.billingPhone);
    BillingRanks(c, p);
    GivenCarried(front, "billing_name", p.billingName, email + (phone + Ending(p)));
    GivenCarried(front + name, "billing_email", p.billingEmail, phone + Ending(p));
    GivenCarried(front + name + email, "billing_tel", p.billingPhone, Ending(p));
    hide MapOf, IfGiven, Opening, Address, Ending, NoRank, Rank;
    assert FieldsRead(c, p) == front + (name + (email + (phone + Ending(p))));
    assert FieldsRead(c, p) == front + name + (email + (phone + Ending(p)));
    assert FieldsRead(c, p) == front + name + email + (phone + Ending(p));
  }

  lemma BillingRanks(c: Config, p: Params)
    ensures var front := Opening(c, p) + (Address(c, p) + [("language", "EN")]);
      var name, email, phone := IfGiven("billing_name", p.billingName), IfGiven("billing_email", p.billingEmail),
                                IfGiven("billing_tel", p.billingPhone);
      && NoRank(front, Rank("billing_name")) && NoRank(email + (phone + Ending(p)), Rank("billing_name"))
      && NoRank(front + name, Rank("billing_email")) && NoRank(phone + Ending(p), Rank("billing_email"))
      && NoRank(front + name + email, Rank("billing_tel")) && NoRank(Ending(p), Rank("billing_tel"))
  {
    Ranks();
    hide Rank;
    var front := Opening(c, p) + (Address(c, p) + [("language", "EN")]);
    var name, email, phone := IfGiven("billing_name", p.billingName), IfGiven("billing_email", p.billingEmail),
                              IfGiven("billing_tel", p.billingPhone);
    forall rank | rank in {12098, 13098, 11098} ensures NoRank(front, rank) && NoRank(Ending(p), rank) {
      NoRankAppend(Opening(c, p), Address(c, p) + [("language", "EN")], rank);
      NoRankAppend(Address(c, p), [("language", "EN")], rank);
    }
    NoRankAppend(email, phone + Ending(p), 12098);
    NoRankAppend(phone, Ending(p), 12098);
    NoRankAppend(front, name, 13098);
    NoRankAppend(phone, Ending(p), 13098);
    NoRankAppend(front + name, email, 11098);
    NoRankAppend(front, name, 11098);
  }

  lemma EndingCarried(c: Config, p: Params)
    ensures var m := MapOf(FieldsRead(c, p));
      Holds(m, "billing_country", "India") && Holds(m, "merchant_param1", p.merchantRef)
  {
    FieldsSplit(c, p);
    Ranks();
    var front := Opening(c, p) + (Address(c, p) + ([("language", "EN")] + Billing(p)));
    OpeningAt(front + Ending(p), |front|, []);
    OpeningAt(front + Ending(p), |front| + 1, []);
    hide Rank, MapOf, Billing, Address, Opening;
    assert FieldsRead(c, p) == front + Ending(p) + [];
  }

  /** For all plain parameters every field of the request arrives under its own key, and a
      billing detail only when the customer gave it. */
  lemma RequestCarries(c: Config, p: Params)
    requires PlainParams(c, p)
    ensures Parse(RequestText(c, p)).Some? && var m := Parse(RequestText(c, p)).value;
      && Holds(m, "merchant_id", c.merchantId) && Holds(m, "order_id", p.orderId) && Holds(m, "amount", p.amount)
      && Holds(m, "currency", "INR") && Holds(m, "redirect_url", c.redirectBase + "/payment/hdfc/response")
      && Holds(m, "language", "EN")
      && Given(m, "billing_name", p.billingName)
      && Given(m, "billing_email", p.billingEmail)
      && Given(m, "billing_tel", p.billingPhone)
      && Holds(m, "billing_country", "India") && Holds(m, "merchant_param1", p.merchantRef)
  {
    RequestReadBack(c, p);
    OpeningCarried(c, p);
    LanguageCarried(c, p);
    BillingCarried(c, p);
    EndingCarried(c, p);
    hide *;
  }

  // ---------------------------------------------------------------------------------------
  // The response
  // ---------------------------------------------------------------------------------------

  datatype Response = Response(
    orderId: string,
    trackingId: string,
    bankRefNo: string,
    orderStatus: string,
    failureMessage: string,
    paymentMode: string,
    amount: string,
    statusCode: string,
    statusMessage: string,
    merchantRef: string)

  function Get(parsed: Pairs, key: string, default: string): string {
    if key in parsed then parsed[key] else default
  }

  function ResponseOf(parsed: Pairs): Response {
    Response(Get(parsed, "order_id", ""), Get(parsed, "tracking_id", ""), Get(parsed, "bank_ref_no", ""),
             Get(parsed, "order_status", "Invalid"), Get(parsed, "failure_message", ""),
             Get(parsed, "payment_mode", ""), Get(parsed, "amount", ""), Get(parsed, "status_code", ""),
             Get(parsed, "status_message", ""), Get(parsed, "merchant_param1", ""))
  }

  const Undecrypted: Response :=
    Response("", "", "", "Invalid", "Decryption failed", "", "", "-1", "Decryption failed", "")

  /** The gateway's side: a response written as pairs, its values encoded. */
  function ResponsePairs(r: Response): seq<(string, string)> {
    [("order_id", r.orderId), ("tracking_id", r.trackingId), ("bank_ref_no", r.bankRefNo),
     ("order_status", r.orderStatus), ("failure_message", r.failureMessage), ("payment_mode", r.paymentMode),
     ("amount", r.amount), ("status_code", r.statusCode), ("status_message", r.statusMessage),
     ("merchant_param1", r.merchantRef)]
  }

  lemma ResponseRanks()
    ensures Rank("order_id") == 8111 && Rank("tracking_id") == 11116 && Rank("bank_ref_no") == 11098
    ensures Rank("order_status") == 12111 && Rank("failure_message") == 15102 && Rank("payment_mode") == 12112
    ensures Rank("amount") == 6097 && Rank("status_code") == 11115 && Rank("status_message") == 14115
    ensures Rank("merchant_param1") == 15109
  {
  }

  lemma ResponseCarried(r: Response)
    ensures var m := MapOf(ResponsePairs(r));
      forall i :: 0 <= i < 10 ==> Holds(m, ResponsePairs(r)[i].0, ResponsePairs(r)[i].1)
  {
    ResponseRanks();
    var all := ResponsePairs(r);
    hide Rank, MapOf;
    forall i | 0 <= i < 10 ensures Holds(MapOf(all), all[i].0, all[i].1) {
      OpeningAt(all, i, []);
      assert all + [] == all;
    }
  }

  /** Reading undoes the gateway's writing: every response, its values encoded in either way,
      is read back field by field. */
  lemma ResponseReadBack(r: Response, plus: bool)
    ensures Parse(Write(EncodeValues(ResponsePairs(r), plus))).Some?
    ensures ResponseOf(Parse(Write(EncodeValues(ResponsePairs(r), plus))).value) == r
  {
    ResponseKeysPlain(r);
    ReadUndoesEncodedWrite(ResponsePairs(r), plus);
    ResponseCarried(r);
    hide MapOf, Write, Parse, EncodeValues, Rank;
    var all := ResponsePairs(r);
    assert forall i :: 0 <= i < 10 ==> Holds(MapOf(all), all[i].0, all[i].1);
    assert Holds(MapOf(all), all[0].0, all[0].1) && Holds(MapOf(all), all[1].0, all[1].1)
        && Holds(MapOf(all), all[2].0, all[2].1) && Holds(MapOf(all), all[3].0, all[3].1)
        && Holds(MapOf(all), all[4].0, all[4].1) && Holds(MapOf(all), all[5].0, all[5].1)
        && Holds(MapOf(all), all[6].0, all[6].1) && Holds(MapOf(all), all[7].0, all[7].1)
        && Holds(MapOf(all), all[8].0, all[8].1) && Holds(MapOf(all), all[9].0, all[9].1);
  }

  lemma ResponseKeysPlain(r: Response)
    ensures forall i :: 0 <= i < 10 ==> PlainKey(ResponsePairs(r)[i].0)
  {
  }

  /** An empty text is a response that nothing was said in: its status is invalid. */
  lemma EmptyResponse()
    ensures Parse("").Some?
    ensures ResponseOf(Parse("").value) == Response("", "", "", "Invalid", "", "", "", "", "", "")
  {
    assert Split("", '&') == [""];
    assert ReadSegments([""]) == AfterSegment(map[], "");
  }

  /** Reads the segments in order; nothing when one of them is malformed. */
  method ParsePairs(text: string) returns (parsed: Option<Pairs>)
    ensures parsed == Parse(text)
  {
    hide ReadSegments, ReadValue;
    var segments := Split(text, '&');
    ReadNothing();
    var pairs: Pairs := map[];
    var i := 0;
    while i < |segments|
      invariant 0 <= i <= |segments|
      invariant ReadSegments(segments[..i]) == Some(pairs)
    {
      var segment := segments[i];
      ReadAppend(segments[..i], segment);
      assert segments[..i + 1] == segments[..i] + [segment];
      var eq := IndexOf(segment, '=');
      if eq != -1 {
        var value := ReadValue(segment[eq + 1..]);
        if value.None? {
          MalformedStays(segments, i + 1);
          return None;
        }
        pairs := pairs[segment[..eq] := value.value];
      }
      i := i + 1;
    }
    assert segments[..i] == segments;
    return Some(pairs);
  }

  lemma ReadNothing()
    ensures ReadSegments([]) == Some(map[])
  {
  }

  /** A malformed segment spoils the whole text. */
  lemma {:induction false} MalformedStays(segments: seq<string>, n: nat)
    requires n <= |segments| && ReadSegments(segments[..n]).None?
    ensures ReadSegments(segments).None?
    decreases |segments| - n
  {
    hide ReadSegments, AfterSegment;
    if n == |segments| {
      assert segments[..n] == segments;
    } else {
      var next := segments[..n] + [segments[n]];
      ReadAppend(segments[..n], segments[n]);
      assert segments[..n + 1] == next;
      MalformedStays(segments, n + 1);
    }
  }

  /** `decrypted` is absent when decryption fails; the reply is absent when the text is
      malformed and the source throws. */
  method ParseResponse(decrypted: Option<string>) returns (reply: Option<Response>)
    ensures reply ==
      if decrypted.None? then
        Some(Response("", "", "", "Invalid", "Decryption failed", "", "", "-1", "Decryption failed", ""))
      else if Parse(decrypted.value).None? then None
      else Some(ResponseOf(Parse(decrypted.value).value))
  {
    if decrypted.None? {
      return Some(Undecrypted);
    }
    var parsed := ParsePairs(decrypted.value);
    if parsed.None? {
      return None;
    }
    return Some(ResponseOf(parsed.value));
  }
}
