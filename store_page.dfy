/** The resource store of the client-routed front end: an account holds a
    credit balance and RAM and disk balances; buying a product checks the
    credits, then debits the price and adds the product's amount to the one
    balance it is for. Products come from a fixed table or from a custom
    amount priced per gigabyte. */
module CreditStore {
  import opened Common

  datatype ResourceKind = Ram | Disk

  datatype Product = Product(id: string, name: string, kind: ResourceKind, amount: int, price: int)

  /** The pre-built packages. */
  const Products: seq<Product> := [
    Product("1", "1GB RAM", Ram, 1, 100),
    Product("2", "2GB RAM", Ram, 2, 180),
    Product("3", "4GB RAM", Ram, 4, 320),
    Product("4", "10GB Disk", Disk, 10, 50),
    Product("5", "25GB Disk", Disk, 25, 100),
    Product("6", "50GB Disk", Disk, 50, 180)
  ]

  /** The balances of the account's profile row. */
  datatype Balance = Balance(credits: int, ramGb: int, diskGb: int)

  /** The guard of a purchase: no signed-in user, or fewer credits than the
      price (a strict comparison, so an exact balance is enough). */
  predicate Rejects(signedIn: bool, credits: int, price: int)
  {
    !signedIn || credits < price
  }

  /** The balances written by a purchase that passed the guard. */
  function AfterPurchase(b: Balance, p: Product): (r: Balance)
    ensures r.credits == b.credits - p.price
    ensures r.ramGb + r.diskGb == b.ramGb + b.diskGb + p.amount
    ensures p.kind == Ram ==> r.diskGb == b.diskGb
    ensures p.kind == Disk ==> r.ramGb == b.ramGb
  {
    match p.kind
    case Ram => Balance(b.credits - p.price, b.ramGb + p.amount, b.diskGb)
    case Disk => Balance(b.credits - p.price, b.ramGb, b.diskGb + p.amount)
  }

  /** A purchase that passes the guard never drives the credits below zero,
      and lowers them exactly when the price is positive. */
  lemma PurchaseKeepsCreditsNonNegative(b: Balance, p: Product)
    requires !Rejects(true, b.credits, p.price)
    ensures AfterPurchase(b, p).credits >= 0
    ensures AfterPurchase(b, p).credits < b.credits <==> p.price > 0
  {
  }

  /** Credits exactly equal to the price are accepted and leave nothing. */
  lemma ExactCreditsAccepted(b: Balance, p: Product)
    requires b.credits == p.price
    ensures !Rejects(true, b.credits, p.price)
    ensures AfterPurchase(b, p).credits == 0
  {
  }

  /** Price of a custom amount: 100 credits per GB of RAM, 5 per GB of disk. */
  function CustomPrice(kind: ResourceKind, amount: int): (price: int)
    ensures kind == Ram ==> price == 100 * amount
    ensures kind == Disk ==> price == 5 * amount
    ensures amount >= 1 ==> price >= 5
  {
    match kind
    case Ram => amount * 100
    case Disk => amount * 5
  }

  /** No package costs more than the same amount bought as a custom amount. */
  lemma PackagesNeverDearerThanCustom()
    ensures forall k :: 0 <= k < |Products| ==>
      Products[k].price <= CustomPrice(Products[k].kind, Products[k].amount)
  {
  }

  function KindLabel(kind: ResourceKind): string
  {
    match kind
    case Ram => "RAM"
    case Disk => "DISK"
  }

  /** What the custom-purchase handler decides before it buys anything. */
  datatype CustomDecision =
    | Ignore              // no user, or the amount field is empty: nothing happens
    | Decline(price: int) // "Insufficient credits"
    | Buy(product: Product)

  /** A custom amount field the model can read: empty, or text that
      `parseInt` turns into a number. */
  predicate ReadableAmount(customAmount: string)
  {
    customAmount == "" || ParseInt(customAmount).Some?
  }

  /** The custom-purchase handler as written: the amount is parsed and
      priced, the credits are compared with that price, and nothing rejects
      an amount below 1. */
  function CustomAttempt(signedIn: bool, credits: int, customAmount: string, kind: ResourceKind): (r: CustomDecision)
    requires ReadableAmount(customAmount)
    ensures r.Ignore? <==> !signedIn || customAmount == ""
    ensures r.Decline? ==> r.price == CustomPrice(kind, ParseInt(customAmount).value) && credits < r.price
    ensures signedIn && customAmount != "" && credits >= CustomPrice(kind, ParseInt(customAmount).value) ==> r.Buy?
    ensures r.Buy? ==> r.product.kind == kind && r.product.id == "custom"
                       && r.product.amount == ParseInt(customAmount).value
                       && r.product.price == CustomPrice(kind, r.product.amount)
                       && !Rejects(signedIn, credits, r.product.price)
  {
    if !signedIn || customAmount == "" then Ignore
    else
      var amount := ParseInt(customAmount).value;
      var price := CustomPrice(kind, amount);
      if credits < price then Decline(price)
      else Buy(Product("custom", IntToString(amount) + "GB " + KindLabel(kind), kind, amount, price))
  }

  /** The custom-purchase decision once an amount below 1 is refused, as the
      field's `min="1"` says was intended. */
  function IntendedCustomAttempt(signedIn: bool, credits: int, customAmount: string, kind: ResourceKind): (r: CustomDecision)
    requires ReadableAmount(customAmount)
    ensures r.Buy? ==> r.product.amount >= 1 && r.product.price >= 5
    ensures r.Buy? <==> CustomAttempt(signedIn, credits, customAmount, kind).Buy?
                        && ParseInt(customAmount).value >= 1
  {
    var d := CustomAttempt(signedIn, credits, customAmount, kind);
    if d.Buy? && d.product.amount < 1 then Ignore else d
  }

  /** As written, typing "-10" as a RAM amount passes both checks, so the
      purchase adds 1000 credits and removes 10 GB of RAM. */
  lemma NegativeCustomAmountMintsCredits()
    ensures ParseInt("-10") == Some(-10)
    ensures CustomAttempt(true, 0, "-10", Ram).Buy?
    ensures AfterPurchase(Balance(0, 0, 0), CustomAttempt(true, 0, "-10", Ram).product) == Balance(1000, -10, 0)
  {
    assert TrimStart("-10") == "-10";
    assert "-10"[1..] == "10";
    assert LeadingDigits("10") == 2 by {
      assert LeadingDigits("0") == 1 by { assert LeadingDigits(""[..]) == 0; assert "0"[1..] == ""; }
      assert "10"[1..] == "0";
    }
    assert "10"[..2] == "10";
    assert DigitsValue("10") == 10 by {
      assert "10"[..1] == "1";
      assert DigitsValue("1") == 1 by { assert "1"[..0] == ""; }
    }
  }

  /** With the intended guard a custom purchase never adds credits and
      never lowers a resource balance. */
  lemma IntendedCustomPurchaseNeverMints(signedIn: bool, b: Balance, customAmount: string, kind: ResourceKind)
    requires ReadableAmount(customAmount)
    requires IntendedCustomAttempt(signedIn, b.credits, customAmount, kind).Buy?
    ensures var after := AfterPurchase(b, IntendedCustomAttempt(signedIn, b.credits, customAmount, kind).product);
      after.credits < b.credits && after.ramGb >= b.ramGb && after.diskGb >= b.diskGb && after.credits >= 0
  {
  }

  /** The Buy button of package `p` is disabled. */
  predicate BuyDisabled(loading: Option<string>, signedIn: bool, credits: int, p: Product)
  {
    loading == Some(p.id) || !signedIn || credits < p.price
  }

  /** The Buy button is disabled exactly when the handler's guard would
      reject, or while that product's purchase is running. */
  lemma BuyDisabledMatchesGuard(loading: Option<string>, signedIn: bool, credits: int, p: Product)
    ensures BuyDisabled(loading, signedIn, credits, p) <==> loading == Some(p.id) || Rejects(signedIn, credits, p.price)
  {
  }

  /** The custom-purchase button is disabled; an empty field counts as 0 in
      the price preview. */
  predicate CustomDisabled(customAmount: string, loading: Option<string>, signedIn: bool, credits: int, kind: ResourceKind)
    requires ReadableAmount(customAmount)
  {
    customAmount == "" || loading == Some("custom") || !signedIn
    || credits < CustomPrice(kind, if customAmount == "" then 0 else ParseInt(customAmount).value)
  }

  /** Whenever the custom-purchase button is enabled, the handler goes on
      to buy. */
  lemma CustomEnabledMeansBuy(customAmount: string, loading: Option<string>, signedIn: bool, credits: int, kind: ResourceKind)
    requires ReadableAmount(customAmount)
    requires !CustomDisabled(customAmount, loading, signedIn, credits, kind)
    ensures CustomAttempt(signedIn, credits, customAmount, kind).Buy?
  {
  }

  datatype PurchaseOutcome = Rejected | Failed | Purchased

  /** The store page together with the account row it shows. */
  class StorePage {
    var signedIn: bool
    var credits: int
    var ramGb: int
    var diskGb: int
    var loading: Option<string>
    var customAmount: string
    var customKind: ResourceKind

    function Account(): Balance
      reads this
    {
      Balance(credits, ramGb, diskGb)
    }

    constructor (signedIn: bool, account: Balance)
      ensures this.signedIn == signedIn && Account() == account
      ensures loading == None && customAmount == "" && customKind == Ram
    {
      this.signedIn := signedIn;
      credits, ramGb, diskGb := account.credits, account.ramGb, account.diskGb;
      loading, customAmount, customKind := None, "", Ram;
    }

    /** Buy product `p`; `writeOk` is whether the profile update succeeds. */
    method Purchase(p: Product, writeOk: bool) returns (r: PurchaseOutcome)
      modifies this
      ensures r == Rejected <==> old(Rejects(signedIn, credits, p.price))
      ensures r == Purchased <==> old(!Rejects(signedIn, credits, p.price)) && writeOk
      ensures Account() == if r == Purchased then AfterPurchase(old(Account()), p) else old(Account())
      ensures loading == if r == Rejected then old(loading) else None
      ensures signedIn == old(signedIn) && customAmount == old(customAmount) && customKind == old(customKind)
    {
      if !signedIn || credits < p.price {
        return Rejected;
      }
      loading := Some(p.id);
      if writeOk {
        var next := AfterPurchase(Account(), p);
        credits, ramGb, diskGb := next.credits, next.ramGb, next.diskGb;
        r := Purchased;
      } else {
        r := Failed;
      }
      loading := None;
    }

    /** Buy the custom amount as written; the field is cleared after any
        attempt that gets past the credit check, whether or not the write
        succeeds. */
    method CustomPurchase(writeOk: bool) returns (d: CustomDecision, r: PurchaseOutcome)
      requires ReadableAmount(customAmount)
      modifies this
      ensures d == old(CustomAttempt(signedIn, credits, customAmount, customKind))
      ensures r == (if d.Buy? then (if writeOk then Purchased else Failed) else Rejected)
      ensures Account() == if d.Buy? && writeOk then AfterPurchase(old(Account()), d.product) else old(Account())
      ensures customAmount == if d.Buy? then "" else old(customAmount)
      ensures loading == if d.Buy? then None else old(loading)
      ensures signedIn == old(signedIn) && customKind == old(customKind)
    {
      d := CustomAttempt(signedIn, credits, customAmount, customKind);
      if !d.Buy? {
        return d, Rejected;
      }
      r := Purchase(d.product, writeOk);
      customAmount := "";
    }

    /** Buy the custom amount with amounts below 1 refused. */
    method IntendedCustomPurchase(writeOk: bool) returns (d: CustomDecision, r: PurchaseOutcome)
      requires ReadableAmount(customAmount)
      modifies this
      ensures d == old(IntendedCustomAttempt(signedIn, credits, customAmount, customKind))
      ensures r == (if d.Buy? then (if writeOk then Purchased else Failed) else Rejected)
      ensures Account() == if d.Buy? && writeOk then AfterPurchase(old(Account()), d.product) else old(Account())
      ensures credits <= old(credits)
      ensures customAmount == if d.Buy? then "" else old(customAmount)
      ensures signedIn == old(signedIn) && customKind == old(customKind)
    {
      d := IntendedCustomAttempt(signedIn, credits, customAmount, customKind);
      if !d.Buy? {
        return d, Rejected;
      }
      r := Purchase(d.product, writeOk);
      customAmount := "";
    }
  }
}
