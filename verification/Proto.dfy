/** The same postings and votes as protocol-buffer messages. A message reference may be absent, a
    one-of may be unset, decimals are text, and routing numbers and option amounts are 32 bits wide. */
module Proto {
  import opened Common
  import opened Wire

  type Int32 = x: int | -0x8000_0000 <= x < 0x8000_0000

  datatype PId = PId(routingNumber: Int32, id: string)

  datatype PMoney = PMoney(currency: string, amount: string)

  datatype PStock = PStock(ticker: string)

  datatype POption = POption(
    negotiationId: Option<PId>, stock: Option<PStock>, price: Option<PMoney>, settlement: string, amount: Int32)

  datatype PAccount = NoAccount | Person(person: Option<PId>) | AccountNum(num: string) | OptionOf(option: Option<PId>)

  datatype PAsset = NoAsset | Monas(money: Option<PMoney>) | Stock(stock: Option<PStock>) | OptionDesc(desc: Option<POption>)

  datatype PPosting = PPosting(account: Option<PAccount>, amount: string, asset: Option<PAsset>)

  datatype PTransaction = PTransaction(
    id: Option<PId>, postings: seq<Option<PPosting>>,
    message: string, callNumber: string, paymentCode: string, paymentPurpose: string)

  datatype MapError = NilMessage | NoVariant | BadAmount

  /** Conversion to 32 bits keeps the low 32 bits as a signed number. */
  function Truncate(x: int): (r: Int32)
    ensures r == x <==> -0x8000_0000 <= x < 0x8000_0000
  {
    (x + 0x8000_0000) % 0x1_0000_0000 - 0x8000_0000
  }

  // From the domain

  function IdToProto(id: ForeignBankId): PId {
    PId(Truncate(id.routingNumber), id.id)
  }

  function AccountToProto(a: Option<TxAccount>): PAccount {
    match a
    case None => NoAccount
    case Some(PersonAccount(id)) => Person(Some(IdToProto(id)))
    case Some(RealAccount(num)) => AccountNum(num)
    case Some(OptionAccount(id)) => OptionOf(Some(IdToProto(id)))
  }

  function MoneyToProto<D>(lib: Library<D>, m: MonetaryValue<D>): PMoney {
    PMoney(m.currency, lib.format(m.amount))
  }

  function AssetToProto<D>(lib: Library<D>, a: Option<Asset<D>>): PAsset {
    match a
    case None => NoAsset
    case Some(MonasAsset(currency)) => Monas(Some(PMoney(currency, "0")))
    case Some(StockAsset(ticker)) => Stock(Some(PStock(ticker)))
    case Some(OptionAsset(o)) =>
      OptionDesc(Some(POption(Some(IdToProto(o.negotiationId)), Some(PStock(o.ticker)),
        Some(MoneyToProto(lib, o.price)), o.settlement, Truncate(o.amount))))
  }

  function PostingToProto<D>(lib: Library<D>, p: Posting<D>): PPosting {
    PPosting(Some(AccountToProto(p.account)), lib.format(p.amount), Some(AssetToProto(lib, p.asset)))
  }

  // To the domain

  function IdFromProto(p: Option<PId>): ForeignBankId {
    if p.None? then ForeignBankId(0, "") else ForeignBankId(p.value.routingNumber, p.value.id)
  }

  function Amount<D>(lib: Library<D>, text: string): Result<D, MapError> {
    var d := lib.parse(text);
    if d.Some? then Ok(d.value) else Err(BadAmount)
  }

  function MoneyFromProto<D>(lib: Library<D>, p: Option<PMoney>): Result<MonetaryValue<D>, MapError> {
    if p.None? then Ok(MonetaryValue("", lib.zero))
    else
      var amount :- Amount(lib, p.value.amount);
      Ok(MonetaryValue(p.value.currency, amount))
  }

  function AccountFromProto(p: Option<PAccount>): Result<TxAccount, MapError> {
    match p
    case None => Err(NilMessage)
    case Some(NoAccount) => Err(NoVariant)
    case Some(Person(id)) => Ok(PersonAccount(IdFromProto(id)))
    case Some(AccountNum(num)) => Ok(RealAccount(num))
    case Some(OptionOf(id)) => Ok(OptionAccount(IdFromProto(id)))
  }

  function AssetFromProto<D>(lib: Library<D>, p: Option<PAsset>): Result<Asset<D>, MapError> {
    match p
    case None => Err(NilMessage)
    case Some(NoAsset) => Err(NoVariant)
    case Some(Monas(money)) => if money.None? then Err(NilMessage) else Ok(MonasAsset(money.value.currency))
    case Some(Stock(stock)) => if stock.None? then Err(NilMessage) else Ok(StockAsset(stock.value.ticker))
    case Some(OptionDesc(desc)) =>
      if desc.None? then Err(NilMessage)
      else
        var o := desc.value;
        var price :- MoneyFromProto(lib, o.price);
        var ticker := if o.stock.Some? then o.stock.value.ticker else "";
        Ok(OptionAsset(OptionDescription(IdFromProto(o.negotiationId), ticker, price, o.settlement, o.amount)))
  }

  function PostingFromProto<D>(lib: Library<D>, p: Option<PPosting>): Result<Posting<D>, MapError> {
    if p.None? then Err(NilMessage)
    else
      var amount :- Amount(lib, p.value.amount);
      var account :- AccountFromProto(p.value.account);
      var asset :- AssetFromProto(lib, p.value.asset);
      Ok(Posting(Some(account), amount, Some(asset)))
  }

  /** Field by field: each variant has its own place, decimals are formatted, money of account carries the
      amount "0", and numbers are kept when they fit. */
  lemma ProtoForms<D>(lib: Library<D>, r: Int32, id: string, text: string, o: OptionDescription<D>, p: Posting<D>)
    ensures AccountToProto(Some(PersonAccount(ForeignBankId(r, id)))) == Person(Some(PId(r, id)))
    ensures AccountToProto(Some(RealAccount(text))) == AccountNum(text)
    ensures AccountToProto(Some(OptionAccount(ForeignBankId(r, id)))) == OptionOf(Some(PId(r, id)))
    ensures AssetToProto(lib, Some(MonasAsset(text))) == Monas(Some(PMoney(text, "0")))
    ensures AssetToProto(lib, Some(StockAsset(text))) == Stock(Some(PStock(text)))
    ensures var q := AssetToProto(lib, Some(OptionAsset(o)));
            && q.OptionDesc? && q.desc.Some? && q.desc.value.stock == Some(PStock(o.ticker))
            && q.desc.value.price == Some(PMoney(o.price.currency, lib.format(o.price.amount)))
            && q.desc.value.settlement == o.settlement
            && q.desc.value.negotiationId.Some? && q.desc.value.negotiationId.value.id == o.negotiationId.id
    ensures var q := PostingToProto(lib, p);
            q.account == Some(AccountToProto(p.account)) && q.amount == lib.format(p.amount) && q.asset == Some(AssetToProto(lib, p.asset))
  {
  }

  /** What is not there: an absent id, stock or price is zero, but an absent account, asset, posting or money of
      account is an error, as are an unset one-of and an amount that is no decimal. */
  lemma AbsentMessages<D>(lib: Library<D>, q: PPosting, o: POption)
    ensures IdFromProto(None) == ForeignBankId(0, "") && MoneyFromProto(lib, None) == Ok(MonetaryValue("", lib.zero))
    ensures AccountFromProto(None) == Err(NilMessage) && AccountFromProto(Some(NoAccount)) == Err(NoVariant)
    ensures AssetFromProto(lib, None) == Err(NilMessage) && AssetFromProto(lib, Some(NoAsset)) == Err(NoVariant)
    ensures AssetFromProto(lib, Some(Monas(None))) == AssetFromProto(lib, Some(Stock(None)))
            == AssetFromProto(lib, Some(OptionDesc(None))) == Err(NilMessage)
    ensures PostingFromProto(lib, None) == Err(NilMessage)
    ensures lib.parse(q.amount).None? ==> PostingFromProto(lib, Some(q)) == Err(BadAmount)
    ensures o.stock.None? && o.price.None? ==>
              AssetFromProto(lib, Some(OptionDesc(Some(o))))
              == Ok(OptionAsset(OptionDescription(IdFromProto(o.negotiationId), "", MonetaryValue("", lib.zero), o.settlement, o.amount)))
  {
  }

  // Round trips

  predicate Fits(x: int) {
    -0x8000_0000 <= x < 0x8000_0000
  }

  predicate AccountFits(a: TxAccount) {
    a.RealAccount? || Fits(a.id.routingNumber)
  }

  predicate AssetFits<D>(a: Asset<D>) {
    a.OptionAsset? ==> Fits(a.desc.negotiationId.routingNumber) && Fits(a.desc.amount)
  }

  /** The posting names an account and an asset, and their numbers are 32 bits wide. */
  predicate PostingFits<D>(p: Posting<D>) {
    p.account.Some? && AccountFits(p.account.value) && p.asset.Some? && AssetFits(p.asset.value)
  }

  lemma AccountSurvives(a: TxAccount)
    ensures var r := AccountFromProto(Some(AccountToProto(Some(a))));
            r.Ok? && (r.value == a <==> AccountFits(a))
  {
    hide Truncate;
  }

  lemma AssetSurvives<D(!new)>(lib: Library<D>, a: Asset<D>)
    requires Lawful(lib)
    ensures var r := AssetFromProto(lib, Some(AssetToProto(lib, Some(a))));
            r.Ok? && (r.value == a <==> AssetFits(a))
  {
    hide Truncate;
    if a.OptionAsset? {
      var price := a.desc.price;
      assert MoneyFromProto(lib, Some(MoneyToProto(lib, price))) == Ok(price);
    }
  }

  /** Mapping a posting to a protocol buffer and back gives the same posting exactly when it fits. */
  lemma PostingSurvives<D(!new)>(lib: Library<D>, p: Posting<D>)
    requires Lawful(lib)
    ensures PostingFromProto(lib, Some(PostingToProto(lib, p))) == Ok(p) <==> PostingFits(p)
  {
    hide AccountFromProto, AccountToProto, AssetFromProto, AssetToProto, AccountFits, AssetFits;
    assert Amount(lib, lib.format(p.amount)) == Ok(p.amount);
    if p.account.Some? {
      AccountSurvives(p.account.value);
    }
    if p.asset.Some? {
      AssetSurvives(lib, p.asset.value);
    }
  }

  lemma AccountReceived(q: Option<PAccount>)
    ensures var r := AccountFromProto(q); r.Ok? ==> AccountFits(r.value)
  {
  }

  lemma AssetReceived<D>(lib: Library<D>, q: Option<PAsset>)
    ensures var r := AssetFromProto(lib, q); r.Ok? ==> AssetFits(r.value)
  {
    hide MoneyFromProto;
    match q
    case Some(OptionDesc(Some(o))) =>
      var amount: Int32, id := o.amount, IdFromProto(o.negotiationId);
      assert Fits(amount) && Fits(id.routingNumber);
    case _ =>
  }

  /** Whatever arrives as a protocol buffer fits, so sending it on as one loses nothing. */
  lemma ReceivedFits<D(!new)>(lib: Library<D>, q: Option<PPosting>)
    requires Lawful(lib)
    ensures var r := PostingFromProto(lib, q);
            r.Ok? ==> PostingFits(r.value) && PostingFromProto(lib, Some(PostingToProto(lib, r.value))) == r
  {
    hide PostingToProto, Lawful, Amount, AccountFromProto, AssetFromProto, AccountFits, AssetFits;
    var r := PostingFromProto(lib, q);
    if r.Ok? {
      AccountReceived(q.value.account);
      AssetReceived(lib, q.value.asset);
      PostingSurvives(lib, r.value);
    }
  }

  // Whole transactions

  /** The postings before the first one that cannot be mapped. */
  function Mapped<D>(lib: Library<D>, qs: seq<Option<PPosting>>): (ps: seq<Posting<D>>)
    ensures |ps| <= |qs|
    ensures forall i :: 0 <= i < |ps| ==> PostingFromProto(lib, qs[i]) == Ok(ps[i])
    ensures |ps| < |qs| ==> PostingFromProto(lib, qs[|ps|]).Err?
  {
    if qs == [] then []
    else
      var r := PostingFromProto(lib, qs[0]);
      if r.Err? then [] else [r.value] + Mapped(lib, qs[1..])
  }

  lemma MappedIs<D>(lib: Library<D>, qs: seq<Option<PPosting>>, ps: seq<Posting<D>>)
    requires |ps| <= |qs|
    requires forall i :: 0 <= i < |ps| ==> PostingFromProto(lib, qs[i]) == Ok(ps[i])
    requires |ps| < |qs| ==> PostingFromProto(lib, qs[|ps|]).Err?
    ensures Mapped(lib, qs) == ps
  {
    hide PostingFromProto;
    var ms := Mapped(lib, qs);
    assert forall i :: 0 <= i < |ms| && i < |ps| ==> Result<Posting<D>, MapError>.Ok(ms[i]) == Ok(ps[i]);
    assert |ms| == |ps|;
  }

  function SliceOf<T>(items: seq<T>): Slice<T> {
    if items == [] then Nil else Items(items)
  }

  /** The transaction keeps the postings mapped so far when one of them fails. */
  method MapProtoTx<D>(lib: Library<D>, p: Option<PTransaction>)
      returns (out: Transaction<D>, failed: Option<MapError>)
    ensures p.None? ==>
              failed == Some(NilMessage) && out == Transaction(ForeignBankId(0, ""), Nil, "", "", "", "")
    ensures p.Some? ==>
              var q := p.value;
              var ps := Mapped(lib, q.postings);
              && out == Transaction(IdFromProto(q.id), SliceOf(ps), q.message, q.callNumber, q.paymentCode, q.paymentPurpose)
              && (failed.None? <==> |ps| == |q.postings|)
              && (failed.Some? && |ps| < |q.postings| ==> PostingFromProto(lib, q.postings[|ps|]) == Err(failed.value))
  {
    hide PostingFromProto, Mapped;
    if p.None? {
      return Transaction(ForeignBankId(0, ""), Nil, "", "", "", ""), Some(NilMessage);
    }
    var q := p.value;
    out := Transaction(IdFromProto(q.id), Nil, q.message, q.callNumber, q.paymentCode, q.paymentPurpose);
    var done: seq<Posting<D>> := [];
    for i := 0 to |q.postings|
      invariant |done| == i
      invariant forall k :: 0 <= k < i ==> PostingFromProto(lib, q.postings[k]) == Ok(done[k])
      invariant out == Transaction(IdFromProto(q.id), SliceOf(done), q.message, q.callNumber, q.paymentCode, q.paymentPurpose)
    {
      var r := PostingFromProto(lib, q.postings[i]);
      if r.Err? {
        MappedIs(lib, q.postings, done);
        return out, Some(r.error);
      }
      done := done + [r.value];
      out := out.(postings := Items(done));
    }
    MappedIs(lib, q.postings, done);
    failed := None;
  }

  function PostingsToProto<D>(lib: Library<D>, ps: seq<Posting<D>>): (qs: seq<Option<PPosting>>)
    ensures |qs| == |ps|
    ensures forall i :: 0 <= i < |ps| ==> qs[i] == Some(PostingToProto(lib, ps[i]))
  {
    if ps == [] then [] else [Some(PostingToProto(lib, ps[0]))] + PostingsToProto(lib, ps[1..])
  }

  /** A list of postings of any length survives exactly when each of them fits. */
  lemma PostingsSurvive<D(!new)>(lib: Library<D>, ps: seq<Posting<D>>)
    requires Lawful(lib)
    ensures Mapped(lib, PostingsToProto(lib, ps)) == ps <==> forall i :: 0 <= i < |ps| ==> PostingFits(ps[i])
  {
    hide PostingFromProto, PostingToProto, PostingFits, Lawful;
    forall i | 0 <= i < |ps|
      ensures PostingFromProto(lib, Some(PostingToProto(lib, ps[i]))) == Ok(ps[i]) <==> PostingFits(ps[i])
    {
      PostingSurvives(lib, ps[i]);
    }
    var qs := PostingsToProto(lib, ps);
    var ms := Mapped(lib, qs);
    if forall i :: 0 <= i < |ps| ==> PostingFits(ps[i]) {
      MappedIs(lib, qs, ps);
    }
    if ms == ps {
      forall i | 0 <= i < |ps| ensures PostingFits(ps[i]) {
        assert PostingFromProto(lib, qs[i]) == Ok(ms[i]);
      }
    }
  }

  // Votes

  datatype Reason<+D> = Reason(reason: string, posting: Option<Posting<D>>)

  datatype Vote<+D> = Vote(vote: string, reasons: seq<Reason<D>>)

  datatype VoteCode = VoteUnspecified | VoteYes | VoteNo

  datatype ReasonCode =
    | ReasonUnspecified
    | UnbalancedTx
    | NoSuchAccount
    | NoSuchAsset
    | UnacceptableAsset
    | InsufficientAsset
    | OptionAmountIncorrect
    | OptionUsedOrExpired
    | OptionNegotiationNotFound

  datatype PReason = PReason(reason: ReasonCode, posting: Option<PPosting>)

  datatype PVote = PVote(vote: VoteCode, reasons: seq<PReason>)

  function VoteToCode(v: string): VoteCode {
    if v == "YES" then VoteYes else if v == "NO" then VoteNo else VoteUnspecified
  }

  function ReasonToCode(r: string): ReasonCode {
    if r == "UNBALANCED_TX" then UnbalancedTx
    else if r == "NO_SUCH_ACCOUNT" then NoSuchAccount
    else if r == "NO_SUCH_ASSET" then NoSuchAsset
    else if r == "UNACCEPTABLE_ASSET" then UnacceptableAsset
    else if r == "INSUFFICIENT_ASSET" then InsufficientAsset
    else if r == "OPTION_AMOUNT_INCORRECT" then OptionAmountIncorrect
    else if r == "OPTION_USED_OR_EXPIRED" then OptionUsedOrExpired
    else if r == "OPTION_NEGOTIATION_NOT_FOUND" then OptionNegotiationNotFound
    else ReasonUnspecified
  }

  function ReasonToProto<D>(lib: Library<D>, r: Reason<D>): PReason {
    PReason(ReasonToCode(r.reason), if r.posting.Some? then Some(PostingToProto(lib, r.posting.value)) else None)
  }

  function ReasonsToProto<D>(lib: Library<D>, rs: seq<Reason<D>>): (ps: seq<PReason>)
    ensures |ps| == |rs|
    ensures forall i :: 0 <= i < |rs| ==> ps[i] == ReasonToProto(lib, rs[i])
  {
    seq(|rs|, i requires 0 <= i < |rs| => ReasonToProto(lib, rs[i]))
  }

  function VoteToProto<D>(lib: Library<D>, v: Vote<D>): PVote {
    PVote(VoteToCode(v.vote), ReasonsToProto(lib, v.reasons))
  }

  method MapVoteToProto<D>(lib: Library<D>, v: Vote<D>) returns (out: PVote)
    ensures out == VoteToProto(lib, v)
  {
    hide ReasonToProto;
    out := PVote(VoteToCode(v.vote), []);
    for i := 0 to |v.reasons|
      invariant out.vote == VoteToCode(v.vote)
      invariant |out.reasons| == i
      invariant forall k :: 0 <= k < i ==> out.reasons[k] == ReasonToProto(lib, v.reasons[k])
    {
      out := out.(reasons := out.reasons + [ReasonToProto(lib, v.reasons[i])]);
    }
  }

  /** The codes of the protocol's names; any other name is unspecified. */
  lemma CodeTable(v: string, r: string)
    ensures VoteToCode("YES") == VoteYes && VoteToCode("NO") == VoteNo
    ensures v != "YES" && v != "NO" ==> VoteToCode(v) == VoteUnspecified
    ensures ReasonToCode("UNBALANCED_TX") == UnbalancedTx && ReasonToCode("NO_SUCH_ACCOUNT") == NoSuchAccount
    ensures ReasonToCode("NO_SUCH_ASSET") == NoSuchAsset && ReasonToCode("UNACCEPTABLE_ASSET") == UnacceptableAsset
    ensures ReasonToCode("INSUFFICIENT_ASSET") == InsufficientAsset
    ensures ReasonToCode("OPTION_AMOUNT_INCORRECT") == OptionAmountIncorrect
    ensures ReasonToCode("OPTION_USED_OR_EXPIRED") == OptionUsedOrExpired
    ensures ReasonToCode("OPTION_NEGOTIATION_NOT_FOUND") == OptionNegotiationNotFound
  {
    assert "YES"[0] != "NO"[0];
    CodesByLength();
  }

  lemma CodesByLength()
    ensures |"UNBALANCED_TX"| == |"NO_SUCH_ASSET"| == 13 && "UNBALANCED_TX"[0] != "NO_SUCH_ASSET"[0]
    ensures |"NO_SUCH_ACCOUNT"| == 15 && |"UNACCEPTABLE_ASSET"| == |"INSUFFICIENT_ASSET"| == 18
    ensures "UNACCEPTABLE_ASSET"[0] != "INSUFFICIENT_ASSET"[0]
    ensures |"OPTION_AMOUNT_INCORRECT"| == 23 && |"OPTION_USED_OR_EXPIRED"| == 22 && |"OPTION_NEGOTIATION_NOT_FOUND"| == 28
  {
  }

  predicate ReasonKnown<D>(r: Reason<D>) {
    ReasonToCode(r.reason) != ReasonUnspecified && (r.posting.Some? ==> PostingFits(r.posting.value))
  }

  predicate VoteKnown<D>(v: Vote<D>) {
    VoteToCode(v.vote) != VoteUnspecified && forall i :: 0 <= i < |v.reasons| ==> ReasonKnown(v.reasons[i])
  }

  lemma CodesDiffer(r: string, s: string)
    ensures ReasonToCode(r) == ReasonToCode(s) && r != s ==> ReasonToCode(r) == ReasonUnspecified
  {
  }

  lemma ReasonIsKept<D(!new)>(lib: Library<D>, r: Reason<D>, s: Reason<D>)
    requires Lawful(lib) && ReasonKnown(r) && ReasonKnown(s) && ReasonToProto(lib, r) == ReasonToProto(lib, s)
    ensures r == s
  {
    hide PostingFromProto, PostingToProto, PostingFits, Lawful, ReasonToCode;
    CodesDiffer(r.reason, s.reason);
    if r.posting.Some? {
      PostingSurvives(lib, r.posting.value);
      PostingSurvives(lib, s.posting.value);
    }
  }

  /** Votes that use the protocol's vote and reason names and whose postings fit stay apart. */
  lemma VotesStayApart<D(!new)>(lib: Library<D>, v: Vote<D>, w: Vote<D>)
    requires Lawful(lib) && VoteKnown(v) && VoteKnown(w)
    ensures VoteToProto(lib, v) == VoteToProto(lib, w) <==> v == w
  {
    hide ReasonToProto, ReasonKnown, Lawful;
    if VoteToProto(lib, v) == VoteToProto(lib, w) {
      forall i | 0 <= i < |v.reasons| ensures v.reasons[i] == w.reasons[i] {
        assert ReasonsToProto(lib, v.reasons)[i] == ReasonsToProto(lib, w.reasons)[i];
        ReasonIsKept(lib, v.reasons[i], w.reasons[i]);
      }
    }
  }
}
