/** The interbank messages and their JSON form. JSON is a tree: objects have distinct keys, and a
    number literal is either a plain integer or has a fraction or an exponent. The decimal library is
    a parameter: any formatter and parser in which parsing undoes formatting. */
module Wire {
  import opened Common

  // The messages

  type Int64 = x: int | -0x8000_0000_0000_0000 <= x < 0x8000_0000_0000_0000

  /** A list that tells absent from empty. */
  datatype Slice<+T> = Nil | Items(items: seq<T>)

  datatype ForeignBankId = ForeignBankId(routingNumber: Int64, id: string)

  datatype IdempotenceKey = IdempotenceKey(routing: Int64, key: string)

  datatype MonetaryValue<+D> = MonetaryValue(currency: string, amount: D)

  datatype OptionDescription<+D> = OptionDescription(
    negotiationId: ForeignBankId, ticker: string, price: MonetaryValue<D>, settlement: string, amount: Int64)

  datatype TxAccount = PersonAccount(id: ForeignBankId) | RealAccount(num: string) | OptionAccount(id: ForeignBankId)

  datatype Asset<+D> = MonasAsset(currency: string) | StockAsset(ticker: string) | OptionAsset(desc: OptionDescription<D>)

  datatype Posting<+D> = Posting(account: Option<TxAccount>, amount: D, asset: Option<Asset<D>>)

  datatype Transaction<+D> = Transaction(
    id: ForeignBankId, postings: Slice<Posting<D>>,
    message: string, callNumber: string, paymentCode: string, paymentPurpose: string)

  datatype Body<+D> = NoBody | NewTx(tx: Transaction<D>) | CommitTx(id: ForeignBankId) | RollbackTx(id: ForeignBankId)

  /** The message type and the body are set independently of each other. */
  datatype Message<+D> = Message(key: IdempotenceKey, kind: string, body: Body<D>)

  // JSON trees

  datatype Json =
    | Null
    | Bool(flag: bool)
    | Int(n: int)
    | Frac(text: string)
    | Str(s: string)
    | Arr(elements: seq<Json>)
    | Obj(fields: map<string, Json>)

  datatype Error = WrongType | Missing | UnknownType | BadNumber

  /** The decimal library. */
  datatype Library<!D> = Library(zero: D, format: D -> string, parse: string -> Option<D>, fromInt: int -> D)

  ghost predicate Lawful<D(!new)>(lib: Library<D>) {
    forall d: D :: lib.parse(lib.format(d)) == Some(d)
  }

  // Decoding of single fields: an absent or null field leaves the zero value in place

  predicate IsStruct(j: Json) {
    j.Obj? || j.Null?
  }

  /** The value of a field, with null for an absent one. */
  function Get(j: Json, key: string): Json {
    if j.Obj? && key in j.fields then j.fields[key] else Null
  }

  /** A field kept undecoded: here absence is an error, but null is a value. */
  function Raw(j: Json, key: string): Result<Json, Error> {
    if j.Obj? && key in j.fields then Ok(j.fields[key]) else Err(Missing)
  }

  function ToText(j: Json): Result<string, Error> {
    match j
    case Null => Ok("")
    case Str(s) => Ok(s)
    case _ => Err(WrongType)
  }

  function ToInt(j: Json): Result<Int64, Error> {
    match j
    case Null => Ok(0)
    case Int(n) => if -0x8000_0000_0000_0000 <= n < 0x8000_0000_0000_0000 then Ok(n) else Err(BadNumber)
    case Frac(_) => Err(BadNumber)
    case _ => Err(WrongType)
  }

  function ParseDecimal<D>(lib: Library<D>, text: string): Result<D, Error> {
    var d := lib.parse(text);
    if d.Some? then Ok(d.value) else Err(BadNumber)
  }

  /** Decimals are written in quotes and read with or without them. */
  function ToDecimal<D>(lib: Library<D>, j: Json): Result<D, Error> {
    match j
    case Null => Ok(lib.zero)
    case Int(n) => Ok(lib.fromInt(n))
    case Frac(text) => ParseDecimal(lib, text)
    case Str(text) => ParseDecimal(lib, text)
    case _ => Err(BadNumber)
  }

  // Identifiers

  function EncodeId(id: ForeignBankId): Json {
    Obj(map["routingNumber" := Int(id.routingNumber), "id" := Str(id.id)])
  }

  function DecodeId(j: Json): Result<ForeignBankId, Error> {
    if !IsStruct(j) then Err(WrongType)
    else
      var routing :- ToInt(Get(j, "routingNumber"));
      var id :- ToText(Get(j, "id"));
      Ok(ForeignBankId(routing, id))
  }

  lemma IdRoundTrip(id: ForeignBankId)
    ensures DecodeId(EncodeId(id)) == Ok(id)
  {
    var j := EncodeId(id);
    assert Get(j, "routingNumber") == Int(id.routingNumber);
    assert Get(j, "id") == Str(id.id);
  }

  function EncodeKey(k: IdempotenceKey): Json {
    Obj(map["routingNumber" := Int(k.routing), "locallyGeneratedKey" := Str(k.key)])
  }

  function DecodeKey(j: Json): Result<IdempotenceKey, Error> {
    if !IsStruct(j) then Err(WrongType)
    else
      var routing :- ToInt(Get(j, "routingNumber"));
      var key :- ToText(Get(j, "locallyGeneratedKey"));
      Ok(IdempotenceKey(routing, key))
  }

  lemma KeyRoundTrip(k: IdempotenceKey)
    ensures DecodeKey(EncodeKey(k)) == Ok(k)
  {
    var j := EncodeKey(k);
    assert Get(j, "routingNumber") == Int(k.routing);
    assert Get(j, "locallyGeneratedKey") == Str(k.key);
  }

  // Accounts

  function EncodeAccount(a: TxAccount): Json {
    match a
    case PersonAccount(id) => Obj(map["type" := Str("PERSON"), "id" := EncodeId(id)])
    case RealAccount(num) => Obj(map["type" := Str("ACCOUNT"), "num" := Str(num)])
    case OptionAccount(id) => Obj(map["type" := Str("OPTION"), "id" := EncodeId(id)])
  }

  function DecodeAccount(j: Json): Result<TxAccount, Error> {
    if !IsStruct(j) then Err(WrongType)
    else
      var kind :- ToText(Get(j, "type"));
      var num :- ToText(Get(j, "num"));
      if kind == "PERSON" then
        var raw :- Raw(j, "id");
        var id :- DecodeId(raw);
        Ok(PersonAccount(id))
      else if kind == "ACCOUNT" then Ok(RealAccount(num))
      else if kind == "OPTION" then
        var raw :- Raw(j, "id");
        var id :- DecodeId(raw);
        Ok(OptionAccount(id))
      else Err(UnknownType)
  }

  lemma AccountRoundTrip(a: TxAccount)
    ensures DecodeAccount(EncodeAccount(a)) == Ok(a)
  {
    hide DecodeId, EncodeId;
    var j := EncodeAccount(a);
    assert IsStruct(j);
    match a
    case PersonAccount(id) =>
      IdRoundTrip(id);
      assert Get(j, "type") == Str("PERSON") && Get(j, "num") == Null && Raw(j, "id") == Ok(EncodeId(id));
    case RealAccount(num) =>
      assert Get(j, "type") == Str("ACCOUNT") && Get(j, "num") == Str(num);
    case OptionAccount(id) =>
      IdRoundTrip(id);
      assert Get(j, "type") == Str("OPTION") && Get(j, "num") == Null && Raw(j, "id") == Ok(EncodeId(id));
  }

  // Assets

  function EncodeMoney<D>(lib: Library<D>, m: MonetaryValue<D>): Json {
    Obj(map["currency" := Str(m.currency), "amount" := Str(lib.format(m.amount))])
  }

  function DecodeMoney<D>(lib: Library<D>, j: Json): Result<MonetaryValue<D>, Error> {
    if !IsStruct(j) then Err(WrongType)
    else
      var currency :- ToText(Get(j, "currency"));
      var amount :- ToDecimal(lib, Get(j, "amount"));
      Ok(MonetaryValue(currency, amount))
  }

  lemma MoneyRoundTrip<D(!new)>(lib: Library<D>, m: MonetaryValue<D>)
    requires Lawful(lib)
    ensures DecodeMoney(lib, EncodeMoney(lib, m)) == Ok(m)
  {
    var j := EncodeMoney(lib, m);
    assert Get(j, "currency") == Str(m.currency);
    assert Get(j, "amount") == Str(lib.format(m.amount));
  }

  function EncodeTicker(ticker: string): Json {
    Obj(map["ticker" := Str(ticker)])
  }

  function DecodeTicker(j: Json): Result<string, Error> {
    if IsStruct(j) then ToText(Get(j, "ticker")) else Err(WrongType)
  }

  function EncodeOption<D>(lib: Library<D>, o: OptionDescription<D>): Json {
    Obj(map["negotiationId" := EncodeId(o.negotiationId), "stock" := EncodeTicker(o.ticker),
            "pricePerUnit" := EncodeMoney(lib, o.price), "settlementDate" := Str(o.settlement),
            "amount" := Int(o.amount)])
  }

  function DecodeOption<D>(lib: Library<D>, j: Json): Result<OptionDescription<D>, Error> {
    if !IsStruct(j) then Err(WrongType)
    else
      var id :- DecodeId(Get(j, "negotiationId"));
      var ticker :- DecodeTicker(Get(j, "stock"));
      var price :- DecodeMoney(lib, Get(j, "pricePerUnit"));
      var settlement :- ToText(Get(j, "settlementDate"));
      var amount :- ToInt(Get(j, "amount"));
      Ok(OptionDescription(id, ticker, price, settlement, amount))
  }

  lemma OptionRoundTrip<D(!new)>(lib: Library<D>, o: OptionDescription<D>)
    requires Lawful(lib)
    ensures DecodeOption(lib, EncodeOption(lib, o)) == Ok(o)
  {
    hide DecodeId, EncodeId, DecodeMoney, EncodeMoney, Lawful;
    var j := EncodeOption(lib, o);
    IdRoundTrip(o.negotiationId);
    MoneyRoundTrip(lib, o.price);
    assert IsStruct(j);
    assert Get(j, "negotiationId") == EncodeId(o.negotiationId);
    assert Get(j, "stock") == EncodeTicker(o.ticker);
    assert Get(j, "pricePerUnit") == EncodeMoney(lib, o.price);
    assert Get(j, "settlementDate") == Str(o.settlement);
    assert Get(j, "amount") == Int(o.amount);
    assert DecodeTicker(EncodeTicker(o.ticker)) == Ok(o.ticker);
  }

  function EncodeAsset<D>(lib: Library<D>, a: Asset<D>): Json {
    match a
    case MonasAsset(currency) => Obj(map["type" := Str("MONAS"), "asset" := Obj(map["currency" := Str(currency)])])
    case StockAsset(ticker) => Obj(map["type" := Str("STOCK"), "asset" := EncodeTicker(ticker)])
    case OptionAsset(desc) => Obj(map["type" := Str("OPTION"), "asset" := EncodeOption(lib, desc)])
  }

  function DecodeAsset<D>(lib: Library<D>, j: Json): Result<Asset<D>, Error> {
    if !IsStruct(j) then Err(WrongType)
    else
      var kind :- ToText(Get(j, "type"));
      if kind == "MONAS" then
        var raw :- Raw(j, "asset");
        if !IsStruct(raw) then Err(WrongType)
        else
          var currency :- ToText(Get(raw, "currency"));
          Ok(MonasAsset(currency))
      else if kind == "STOCK" then
        var raw :- Raw(j, "asset");
        var ticker :- DecodeTicker(raw);
        Ok(StockAsset(ticker))
      else if kind == "OPTION" then
        var raw :- Raw(j, "asset");
        var desc :- DecodeOption(lib, raw);
        Ok(OptionAsset(desc))
      else Err(UnknownType)
  }

  lemma AssetRoundTrip<D(!new)>(lib: Library<D>, a: Asset<D>)
    requires Lawful(lib)
    ensures DecodeAsset(lib, EncodeAsset(lib, a)) == Ok(a)
  {
    hide DecodeOption, EncodeOption, Lawful;
    var j := EncodeAsset(lib, a);
    assert IsStruct(j);
    match a
    case MonasAsset(currency) =>
      assert Get(j, "type") == Str("MONAS") && Raw(j, "asset") == Ok(Obj(map["currency" := Str(currency)]));
    case StockAsset(ticker) =>
      assert Get(j, "type") == Str("STOCK") && Raw(j, "asset") == Ok(EncodeTicker(ticker));
    case OptionAsset(desc) =>
      OptionRoundTrip(lib, desc);
      assert Get(j, "type") == Str("OPTION") && Raw(j, "asset") == Ok(EncodeOption(lib, desc));
  }

  // Postings

  function EncodePosting<D>(lib: Library<D>, p: Posting<D>): Json {
    Obj(map["account" := if p.account.Some? then EncodeAccount(p.account.value) else Null,
            "amount" := Str(lib.format(p.amount)),
            "asset" := if p.asset.Some? then EncodeAsset(lib, p.asset.value) else Null])
  }

  function DecodePosting<D>(lib: Library<D>, j: Json): Result<Posting<D>, Error> {
    if !IsStruct(j) then Err(WrongType)
    else
      var amount :- ToDecimal(lib, Get(j, "amount"));
      var rawAccount :- Raw(j, "account");
      var account :- DecodeAccount(rawAccount);
      var rawAsset :- Raw(j, "asset");
      var asset :- DecodeAsset(lib, rawAsset);
      Ok(Posting(Some(account), amount, Some(asset)))
  }

  predicate PostingOk<D>(p: Posting<D>) {
    p.account.Some? && p.asset.Some?
  }

  lemma PostingRoundTrip<D(!new)>(lib: Library<D>, p: Posting<D>)
    requires Lawful(lib)
    ensures DecodePosting(lib, EncodePosting(lib, p)) == if PostingOk(p) then Ok(p) else Err(UnknownType)
  {
    hide DecodeAccount, EncodeAccount, DecodeAsset, EncodeAsset, Get, Raw;
    var j := EncodePosting(lib, p);
    FieldsOfPosting(lib, p);
    NullIsNoType(lib);
    if p.account.Some? {
      AccountRoundTrip(p.account.value);
    }
    if p.asset.Some? {
      AssetRoundTrip(lib, p.asset.value);
    }
  }

  lemma FieldsOfPosting<D>(lib: Library<D>, p: Posting<D>)
    ensures var j := EncodePosting(lib, p);
            && Get(j, "amount") == Str(lib.format(p.amount))
            && Raw(j, "account") == Ok(if p.account.Some? then EncodeAccount(p.account.value) else Null)
            && Raw(j, "asset") == Ok(if p.asset.Some? then EncodeAsset(lib, p.asset.value) else Null)
  {
    hide EncodeAccount, EncodeAsset;
  }

  lemma NullIsNoType<D>(lib: Library<D>)
    ensures DecodeAccount(Null) == Err(UnknownType) && DecodeAsset(lib, Null) == Err(UnknownType)
  {
    assert Get(Null, "type") == Null && Get(Null, "num") == Null;
  }

  function EncodePostings<D>(lib: Library<D>, ps: seq<Posting<D>>): seq<Json> {
    if ps == [] then [] else [EncodePosting(lib, ps[0])] + EncodePostings(lib, ps[1..])
  }

  function DecodePostings<D>(lib: Library<D>, js: seq<Json>): Result<seq<Posting<D>>, Error> {
    if js == [] then Ok([])
    else
      var p :- DecodePosting(lib, js[0]);
      var rest :- DecodePostings(lib, js[1..]);
      Ok([p] + rest)
  }

  predicate PostingsOk<D>(ps: seq<Posting<D>>) {
    forall i :: 0 <= i < |ps| ==> PostingOk(ps[i])
  }

  lemma {:induction false} PostingsRoundTrip<D(!new)>(lib: Library<D>, ps: seq<Posting<D>>)
    requires Lawful(lib)
    ensures DecodePostings(lib, EncodePostings(lib, ps)) == if PostingsOk(ps) then Ok(ps) else Err(UnknownType)
  {
    hide DecodePosting, EncodePosting, Lawful;
    if ps != [] {
      var js := EncodePostings(lib, ps);
      PostingRoundTrip(lib, ps[0]);
      PostingsRoundTrip(lib, ps[1..]);
      assert js[0] == EncodePosting(lib, ps[0]) && js[1..] == EncodePostings(lib, ps[1..]);
      assert ps == [ps[0]] + ps[1..];
      assert PostingsOk(ps) <==> PostingOk(ps[0]) && PostingsOk(ps[1..]);
    }
  }

  // Bodies

  /** A text field left out when empty. */
  function With(fields: map<string, Json>, key: string, text: string): map<string, Json> {
    if text == "" then fields else fields[key := Str(text)]
  }

  function EncodeSlice<D>(lib: Library<D>, ps: Slice<Posting<D>>): Json {
    match ps
    case Nil => Null
    case Items(items) => Arr(EncodePostings(lib, items))
  }

  function DecodeSlice<D>(lib: Library<D>, j: Json): Result<Slice<Posting<D>>, Error> {
    match j
    case Null => Ok(Nil)
    case Arr(elements) =>
      var items :- DecodePostings(lib, elements);
      Ok(Items(items))
    case _ => Err(WrongType)
  }

  function TxFields(id: Json, postings: Json, message: string, call: string, code: string, purpose: string): map<string, Json> {
    With(With(With(With(map["transactionId" := id, "postings" := postings],
      "message", message), "callNumber", call), "paymentCode", code), "paymentPurpose", purpose)
  }

  function EncodeTx<D>(lib: Library<D>, tx: Transaction<D>): Json {
    Obj(TxFields(EncodeId(tx.id), EncodeSlice(lib, tx.postings), tx.message, tx.callNumber, tx.paymentCode, tx.paymentPurpose))
  }

  function DecodeTx<D>(lib: Library<D>, j: Json): Result<Transaction<D>, Error> {
    if !IsStruct(j) then Err(WrongType)
    else
      var id :- DecodeId(Get(j, "transactionId"));
      var postings :- DecodeSlice(lib, Get(j, "postings"));
      var message :- ToText(Get(j, "message"));
      var call :- ToText(Get(j, "callNumber"));
      var code :- ToText(Get(j, "paymentCode"));
      var purpose :- ToText(Get(j, "paymentPurpose"));
      Ok(Transaction(id, postings, message, call, code, purpose))
  }

  predicate TxOk<D>(tx: Transaction<D>) {
    tx.postings.Items? ==> PostingsOk(tx.postings.items)
  }

  lemma WithSets(fields: map<string, Json>, key: string, text: string)
    ensures forall k :: k != key ==> Get(Obj(With(fields, key, text)), k) == Get(Obj(fields), k)
    ensures Get(Obj(fields), key) == Null ==> ToText(Get(Obj(With(fields, key, text)), key)) == Ok(text)
  {
  }

  /** Each field is found again whatever other text fields were left out. */
  lemma FieldsOfTx(id: Json, postings: Json, message: string, call: string, code: string, purpose: string)
    ensures var j := Obj(TxFields(id, postings, message, call, code, purpose));
            && Get(j, "transactionId") == id
            && Get(j, "postings") == postings
            && ToText(Get(j, "message")) == Ok(message)
            && ToText(Get(j, "callNumber")) == Ok(call)
            && ToText(Get(j, "paymentCode")) == Ok(code)
            && ToText(Get(j, "paymentPurpose")) == Ok(purpose)
  {
    hide With, ToText;
    var m0 := map["transactionId" := id, "postings" := postings];
    var m1 := With(m0, "message", message);
    var m2 := With(m1, "callNumber", call);
    var m3 := With(m2, "paymentCode", code);
    assert |"transactionId"| == 13 && |"postings"| == 8 && |"message"| == 7 && |"callNumber"| == 10;
    assert |"paymentCode"| == 11 && |"paymentPurpose"| == 14;
    WithSets(m0, "message", message);
    WithSets(m1, "callNumber", call);
    WithSets(m2, "paymentCode", code);
    WithSets(m3, "paymentPurpose", purpose);
  }

  lemma TxRoundTrip<D(!new)>(lib: Library<D>, tx: Transaction<D>)
    requires Lawful(lib)
    ensures DecodeTx(lib, EncodeTx(lib, tx)) == if TxOk(tx) then Ok(tx) else Err(UnknownType)
  {
    hide DecodeId, EncodeId, DecodePostings, EncodePostings, Lawful, Get, ToText, TxFields, PostingsOk;
    IdRoundTrip(tx.id);
    if tx.postings.Items? {
      PostingsRoundTrip(lib, tx.postings.items);
    }
    FieldsOfTx(EncodeId(tx.id), EncodeSlice(lib, tx.postings), tx.message, tx.callNumber, tx.paymentCode, tx.paymentPurpose);
  }

  function EncodeRef(id: ForeignBankId): Json {
    Obj(map["transactionId" := EncodeId(id)])
  }

  function DecodeRef(j: Json): Result<ForeignBankId, Error> {
    if IsStruct(j) then DecodeId(Get(j, "transactionId")) else Err(WrongType)
  }

  lemma RefRoundTrip(id: ForeignBankId)
    ensures DecodeRef(EncodeRef(id)) == Ok(id)
  {
    hide DecodeId, EncodeId;
    IdRoundTrip(id);
    assert Get(EncodeRef(id), "transactionId") == EncodeId(id);
  }

  // The envelope

  function EncodeBody<D>(lib: Library<D>, body: Body<D>): Json {
    match body
    case NoBody => Null
    case NewTx(tx) => EncodeTx(lib, tx)
    case CommitTx(id) => EncodeRef(id)
    case RollbackTx(id) => EncodeRef(id)
  }

  function DecodeBody<D>(lib: Library<D>, kind: string, raw: Result<Json, Error>): Result<Body<D>, Error> {
    if kind == "NEW_TX" then
      var j :- raw;
      var tx :- DecodeTx(lib, j);
      Ok(NewTx(tx))
    else if kind == "COMMIT_TX" then
      var j :- raw;
      var id :- DecodeRef(j);
      Ok(CommitTx(id))
    else if kind == "ROLLBACK_TX" then
      var j :- raw;
      var id :- DecodeRef(j);
      Ok(RollbackTx(id))
    else Err(UnknownType)
  }

  function Encode<D>(lib: Library<D>, m: Message<D>): Json {
    Obj(map["idempotenceKey" := EncodeKey(m.key), "messageType" := Str(m.kind), "message" := EncodeBody(lib, m.body)])
  }

  function Decode<D>(lib: Library<D>, j: Json): Result<Message<D>, Error> {
    if !IsStruct(j) then Err(WrongType)
    else
      var key :- DecodeKey(Get(j, "idempotenceKey"));
      var kind :- ToText(Get(j, "messageType"));
      var body :- DecodeBody(lib, kind, Raw(j, "message"));
      Ok(Message(key, kind, body))
  }

  predicate BodyMatches<D>(kind: string, body: Body<D>) {
    match body
    case NoBody => false
    case NewTx(_) => kind == "NEW_TX"
    case CommitTx(_) => kind == "COMMIT_TX"
    case RollbackTx(_) => kind == "ROLLBACK_TX"
  }

  /** The body is of the announced type, and every posting names an account and an asset. */
  predicate WellTyped<D>(m: Message<D>) {
    BodyMatches(m.kind, m.body) && (m.body.NewTx? ==> TxOk(m.body.tx))
  }

  lemma BodyRoundTrip<D(!new)>(lib: Library<D>, kind: string, body: Body<D>)
    requires Lawful(lib)
    ensures DecodeBody(lib, kind, Ok(EncodeBody(lib, body))) == Ok(body)
            <==> BodyMatches(kind, body) && (body.NewTx? ==> TxOk(body.tx))
  {
    hide DecodeTx, EncodeTx, DecodeRef, EncodeRef, Lawful, TxOk;
    match body
    case NoBody =>
    case NewTx(tx) => TxRoundTrip(lib, tx);
    case CommitTx(id) => RefRoundTrip(id);
    case RollbackTx(id) => RefRoundTrip(id);
  }

  lemma FieldsOfMessage<D>(lib: Library<D>, m: Message<D>)
    ensures var j := Encode(lib, m);
            && Get(j, "idempotenceKey") == EncodeKey(m.key)
            && Get(j, "messageType") == Str(m.kind)
            && Raw(j, "message") == Ok(EncodeBody(lib, m.body))
  {
    hide EncodeKey, EncodeBody;
  }

  /** Decoding the encoding of a message gives the same message back exactly when it is well typed. */
  lemma MessageRoundTrip<D(!new)>(lib: Library<D>, m: Message<D>)
    requires Lawful(lib)
    ensures Decode(lib, Encode(lib, m)) == Ok(m) <==> WellTyped(m)
  {
    hide EncodeKey, DecodeKey, DecodeBody, EncodeBody, Lawful, Get, Raw, BodyMatches, TxOk;
    FieldsOfMessage(lib, m);
    KeyRoundTrip(m.key);
    BodyRoundTrip(lib, m.kind, m.body);
  }

  /** Whatever is accepted is well typed, so re-encoding what was received loses nothing. */
  lemma DecodedIsWellTyped<D(!new)>(lib: Library<D>, j: Json)
    requires Lawful(lib)
    ensures var r := Decode(lib, j); r.Ok? ==> WellTyped(r.value) && Decode(lib, Encode(lib, r.value)) == r
  {
    hide DecodeKey, DecodeTx, DecodeRef, Lawful, Get, Raw, TxOk;
    var r := Decode(lib, j);
    if r.Ok? {
      if r.value.body.NewTx? {
        DecodedTxOk(lib, Raw(j, "message").value);
      }
      assert WellTyped(r.value);
      MessageRoundTrip(lib, r.value);
    }
  }

  lemma DecodedTxOk<D>(lib: Library<D>, j: Json)
    ensures var r := DecodeTx(lib, j); r.Ok? ==> TxOk(r.value)
  {
    hide DecodePostings, DecodeId, ToText;
    var js := Get(j, "postings");
    if js.Arr? {
      DecodedPostingsOk(lib, js.elements);
    }
  }

  lemma {:induction false} DecodedPostingsOk<D>(lib: Library<D>, js: seq<Json>)
    ensures var r := DecodePostings(lib, js); r.Ok? ==> PostingsOk(r.value) && |r.value| == |js|
  {
    hide DecodeAccount, DecodeAsset, ToDecimal;
    if js != [] {
      DecodedPostingsOk(lib, js[1..]);
    }
  }

  /** Different well-typed messages have different encodings. */
  lemma EncodingsDiffer<D(!new)>(lib: Library<D>, m: Message<D>, m': Message<D>)
    requires Lawful(lib)
    ensures WellTyped(m) && WellTyped(m') && m != m' ==> Encode(lib, m) != Encode(lib, m')
  {
    hide Encode, Decode, WellTyped, Lawful;
    MessageRoundTrip(lib, m);
    MessageRoundTrip(lib, m');
  }

  // The documented forms, both ways

  /** {"type":"PERSON","id":{"routingNumber":..,"id":..}}, {"type":"ACCOUNT","num":..} and
      {"type":"OPTION","id":{..}}. */
  lemma AccountForms(routing: Int64, id: string, num: string)
    ensures var ref := Obj(map["routingNumber" := Int(routing), "id" := Str(id)]);
            var person, account, option := Obj(map["type" := Str("PERSON"), "id" := ref]),
              Obj(map["type" := Str("ACCOUNT"), "num" := Str(num)]), Obj(map["type" := Str("OPTION"), "id" := ref]);
            && EncodeAccount(PersonAccount(ForeignBankId(routing, id))) == person
            && EncodeAccount(RealAccount(num)) == account
            && EncodeAccount(OptionAccount(ForeignBankId(routing, id))) == option
            && DecodeAccount(person) == Ok(PersonAccount(ForeignBankId(routing, id)))
            && DecodeAccount(account) == Ok(RealAccount(num))
            && DecodeAccount(option) == Ok(OptionAccount(ForeignBankId(routing, id)))
  {
    hide DecodeAccount;
    AccountRoundTrip(PersonAccount(ForeignBankId(routing, id)));
    AccountRoundTrip(RealAccount(num));
    AccountRoundTrip(OptionAccount(ForeignBankId(routing, id)));
  }

  /** {"type":"MONAS","asset":{"currency":..}}, {"type":"STOCK","asset":{"ticker":..}} and
      {"type":"OPTION","asset":{"negotiationId":{..},"stock":{..},"pricePerUnit":{..},"settlementDate":..,"amount":..}},
      with decimals in quotes. */
  lemma AssetForms<D(!new)>(lib: Library<D>, text: string, o: OptionDescription<D>)
    requires Lawful(lib)
    ensures var monas, stock := Obj(map["type" := Str("MONAS"), "asset" := Obj(map["currency" := Str(text)])]),
                                Obj(map["type" := Str("STOCK"), "asset" := Obj(map["ticker" := Str(text)])]);
            var option := Obj(map["type" := Str("OPTION"), "asset" := Obj(map[
              "negotiationId" := Obj(map["routingNumber" := Int(o.negotiationId.routingNumber), "id" := Str(o.negotiationId.id)]),
              "stock" := Obj(map["ticker" := Str(o.ticker)]),
              "pricePerUnit" := Obj(map["currency" := Str(o.price.currency), "amount" := Str(lib.format(o.price.amount))]),
              "settlementDate" := Str(o.settlement), "amount" := Int(o.amount)])]);
            && EncodeAsset(lib, MonasAsset(text)) == monas && DecodeAsset(lib, monas) == Ok(MonasAsset(text))
            && EncodeAsset(lib, StockAsset(text)) == stock && DecodeAsset(lib, stock) == Ok(StockAsset(text))
            && EncodeAsset(lib, OptionAsset(o)) == option && DecodeAsset(lib, option) == Ok(OptionAsset(o))
  {
    hide DecodeAsset, Lawful;
    AssetRoundTrip(lib, MonasAsset(text));
    AssetRoundTrip(lib, StockAsset(text));
    AssetRoundTrip(lib, OptionAsset(o));
  }

  /** {"account":..,"amount":"..","asset":..}. */
  lemma PostingForm<D(!new)>(lib: Library<D>, account: TxAccount, amount: D, asset: Asset<D>)
    requires Lawful(lib)
    ensures var p := Posting(Some(account), amount, Some(asset));
            var form := Obj(map["account" := EncodeAccount(account), "amount" := Str(lib.format(amount)), "asset" := EncodeAsset(lib, asset)]);
            EncodePosting(lib, p) == form && DecodePosting(lib, form) == Ok(p)
  {
    hide DecodePosting, EncodeAccount, EncodeAsset, Lawful;
    PostingRoundTrip(lib, Posting(Some(account), amount, Some(asset)));
  }

  /** {"idempotenceKey":{"routingNumber":..,"locallyGeneratedKey":..},"messageType":..,"message":{..}}: a commit
      and a rollback name their transaction. */
  lemma EnvelopeForms<D(!new)>(lib: Library<D>, key: IdempotenceKey, id: ForeignBankId)
    requires Lawful(lib)
    ensures var k := Obj(map["routingNumber" := Int(key.routing), "locallyGeneratedKey" := Str(key.key)]);
            var ref := Obj(map["transactionId" := Obj(map["routingNumber" := Int(id.routingNumber), "id" := Str(id.id)])]);
            var commit := Obj(map["idempotenceKey" := k, "messageType" := Str("COMMIT_TX"), "message" := ref]);
            var rollback := Obj(map["idempotenceKey" := k, "messageType" := Str("ROLLBACK_TX"), "message" := ref]);
            && Encode(lib, Message(key, "COMMIT_TX", CommitTx(id))) == commit
            && Decode(lib, commit) == Ok(Message(key, "COMMIT_TX", CommitTx(id)))
            && Encode(lib, Message(key, "ROLLBACK_TX", RollbackTx(id))) == rollback
            && Decode(lib, rollback) == Ok(Message(key, "ROLLBACK_TX", RollbackTx(id)))
  {
    hide Decode, Lawful;
    MessageRoundTrip(lib, Message(key, "COMMIT_TX", CommitTx(id)));
    MessageRoundTrip(lib, Message(key, "ROLLBACK_TX", RollbackTx(id)));
  }

  /** A new transaction names itself, lists its postings in order and carries those of its four texts that are
      not empty. */
  lemma TransactionForm<D(!new)>(lib: Library<D>, key: IdempotenceKey, tx: Transaction<D>)
    requires Lawful(lib) && tx.postings.Items?
    ensures var m := Message(key, "NEW_TX", NewTx(tx));
            var j := Get(Encode(lib, m), "message");
            && Get(j, "transactionId") == Obj(map["routingNumber" := Int(tx.id.routingNumber), "id" := Str(tx.id.id)])
            && Get(j, "postings").Arr? && |Get(j, "postings").elements| == |tx.postings.items|
            && (forall i :: 0 <= i < |tx.postings.items| ==> Get(j, "postings").elements[i] == EncodePosting(lib, tx.postings.items[i]))
            && ToText(Get(j, "message")) == Ok(tx.message) && ToText(Get(j, "callNumber")) == Ok(tx.callNumber)
            && ToText(Get(j, "paymentCode")) == Ok(tx.paymentCode) && ToText(Get(j, "paymentPurpose")) == Ok(tx.paymentPurpose)
  {
    hide EncodePosting, EncodePostings, TxFields, ToText, Lawful;
    FieldsOfTx(EncodeId(tx.id), EncodeSlice(lib, tx.postings), tx.message, tx.callNumber, tx.paymentCode, tx.paymentPurpose);
    PostingsInOrder(lib, tx.postings.items);
    FieldsOfMessage(lib, Message(key, "NEW_TX", NewTx(tx)));
  }

  lemma {:induction false} PostingsInOrder<D>(lib: Library<D>, ps: seq<Posting<D>>)
    ensures |EncodePostings(lib, ps)| == |ps|
    ensures forall i :: 0 <= i < |ps| ==> EncodePostings(lib, ps)[i] == EncodePosting(lib, ps[i])
  {
    hide EncodePosting;
    if ps != [] {
      PostingsInOrder(lib, ps[1..]);
      assert forall i :: 0 < i < |ps| ==> EncodePostings(lib, ps)[i] == EncodePostings(lib, ps[1..])[i - 1];
    }
  }

  /** What is not there: absent and null fields leave zero values, but an absent id, asset or message is an
      error, as are values of the wrong kind, numbers that are not 64-bit integers, and unknown types. */
  lemma AbsentParts<D>(lib: Library<D>, n: int, text: string)
    ensures DecodeId(Null) == Ok(ForeignBankId(0, "")) && DecodeId(Obj(map[])) == Ok(ForeignBankId(0, ""))
    ensures DecodeId(Str(text)) == Err(WrongType) && DecodeKey(Arr([])) == Err(WrongType)
    ensures DecodeMoney(lib, Null) == Ok(MonetaryValue("", lib.zero))
    ensures DecodeAccount(Obj(map["type" := Str("PERSON")])) == Err(Missing)
    ensures DecodeAccount(Obj(map["type" := Str("ACCOUNT")])) == Ok(RealAccount(""))
    ensures DecodeAsset(lib, Obj(map["type" := Str("STOCK")])) == Err(Missing)
    ensures DecodeAsset(lib, Obj(map["type" := Str("STOCK"), "asset" := Null])) == Ok(StockAsset(""))
    ensures ToInt(Int(n)).Ok? <==> -0x8000_0000_0000_0000 <= n < 0x8000_0000_0000_0000
    ensures ToInt(Frac(text)) == Err(BadNumber) && ToText(Int(n)) == Err(WrongType) && ToDecimal(lib, Int(n)) == Ok(lib.fromInt(n))
    ensures text != "PERSON" && text != "ACCOUNT" && text != "OPTION" ==> DecodeAccount(Obj(map["type" := Str(text)])) == Err(UnknownType)
    ensures text != "NEW_TX" && text != "COMMIT_TX" && text != "ROLLBACK_TX" ==>
              Decode(lib, Obj(map["messageType" := Str(text)])) == Err(UnknownType)
    ensures Decode(lib, Obj(map["messageType" := Str("COMMIT_TX")])) == Err(Missing)
  {
    NoId();
    NoBody(lib, text);
    NoAsset(lib);
    var person, account, other := Obj(map["type" := Str("PERSON")]), Obj(map["type" := Str("ACCOUNT")]), Obj(map["type" := Str(text)]);
    assert Get(person, "num") == Null && Get(account, "num") == Null && Get(other, "num") == Null;
    assert Raw(person, "id") == Err(Missing);
  }

  lemma NoId()
    ensures DecodeId(Null) == Ok(ForeignBankId(0, "")) && DecodeId(Obj(map[])) == Ok(ForeignBankId(0, ""))
  {
    assert Get(Obj(map[]), "id") == Null && Get(Obj(map[]), "routingNumber") == Null;
  }

  lemma NoAsset<D>(lib: Library<D>)
    ensures DecodeAsset(lib, Obj(map["type" := Str("STOCK")])) == Err(Missing)
    ensures DecodeAsset(lib, Obj(map["type" := Str("STOCK"), "asset" := Null])) == Ok(StockAsset(""))
  {
    hide DecodeOption;
    var stock, bare := Obj(map["type" := Str("STOCK")]), Obj(map["type" := Str("STOCK"), "asset" := Null]);
    assert Get(stock, "type") == Str("STOCK") && Raw(stock, "asset") == Err(Missing);
    assert Get(bare, "type") == Str("STOCK") && Raw(bare, "asset") == Ok(Null);
  }

  lemma NoBody<D>(lib: Library<D>, text: string)
    ensures text != "NEW_TX" && text != "COMMIT_TX" && text != "ROLLBACK_TX" ==>
              Decode(lib, Obj(map["messageType" := Str(text)])) == Err(UnknownType)
    ensures Decode(lib, Obj(map["messageType" := Str("COMMIT_TX")])) == Err(Missing)
  {
    hide DecodeTx, DecodeRef;
    var other, commit := Obj(map["messageType" := Str(text)]), Obj(map["messageType" := Str("COMMIT_TX")]);
    assert Get(other, "idempotenceKey") == Null && Get(commit, "idempotenceKey") == Null;
    assert Get(other, "messageType") == Str(text) && Get(commit, "messageType") == Str("COMMIT_TX");
    assert Raw(commit, "message") == Err(Missing);
    assert Get(Null, "routingNumber") == Null && Get(Null, "locallyGeneratedKey") == Null;
    assert DecodeKey(Null) == Ok(IdempotenceKey(0, ""));
  }

  // The two decoders that fill a receiver, field by field, and leave it half filled on an error

  class PostingReceiver<!D> {
    const lib: Library<D>
    var account: Option<TxAccount>
    var amount: D
    var asset: Option<Asset<D>>

    constructor (lib: Library<D>)
      ensures this.lib == lib && account == None && amount == lib.zero && asset == None
    {
      this.lib := lib;
      account, amount, asset := None, lib.zero, None;
    }

    method UnmarshalJSON(data: Json) returns (r: Result<(), Error>)
      modifies this
      ensures var d := DecodePosting(lib, data);
              && r.Ok? == d.Ok?
              && (d.Ok? ==> Posting(account, amount, asset) == d.value)
              && (r.Err? ==> d == Err(r.error) && asset == old(asset))
      ensures account != old(account) ==> ToDecimal(lib, Get(data, "amount")) == Ok(amount)
    {
      hide DecodeAccount, DecodeAsset, ToDecimal, Get, Raw;
      if !IsStruct(data) {
        return Err(WrongType);
      }
      var rawAmount :- ToDecimal(lib, Get(data, "amount"));
      amount := rawAmount;
      var rawAccount :- Raw(data, "account");
      var acc :- DecodeAccount(rawAccount);
      account := Some(acc);
      var rawAsset :- Raw(data, "asset");
      var ast :- DecodeAsset(lib, rawAsset);
      asset := Some(ast);
      return Ok(());
    }
  }

  class MessageReceiver<!D> {
    const lib: Library<D>
    var key: IdempotenceKey
    var kind: string
    var body: Body<D>

    constructor (lib: Library<D>)
      ensures this.lib == lib && Message(key, kind, body) == Message(IdempotenceKey(0, ""), "", NoBody)
    {
      this.lib := lib;
      key, kind, body := IdempotenceKey(0, ""), "", NoBody;
    }

    method UnmarshalJSON(data: Json) returns (r: Result<(), Error>)
      modifies this
      ensures var d := Decode(lib, data);
              && r.Ok? == d.Ok?
              && (d.Ok? ==> Message(key, kind, body) == d.value)
              && (r.Err? ==> d == Err(r.error) && body == old(body))
    {
      hide DecodeKey, DecodeTx, DecodeRef, Get, Raw, ToText;
      if !IsStruct(data) {
        return Err(WrongType);
      }
      var envKey :- DecodeKey(Get(data, "idempotenceKey"));
      var envKind :- ToText(Get(data, "messageType"));
      key, kind := envKey, envKind;
      if kind == "NEW_TX" {
        var raw :- Raw(data, "message");
        var tx :- DecodeTx(lib, raw);
        body := NewTx(tx);
      } else if kind == "COMMIT_TX" {
        var raw :- Raw(data, "message");
        var id :- DecodeRef(raw);
        body := CommitTx(id);
      } else if kind == "ROLLBACK_TX" {
        var raw :- Raw(data, "message");
        var id :- DecodeRef(raw);
        body := RollbackTx(id);
      } else {
        return Err(UnknownType);
      }
      return Ok(());
    }
  }
}
