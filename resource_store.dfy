/** The resource store of the file-routed front end: a purchase adds a fixed
    amount to one of three balances (RAM, disk, CPU) of the signed-in user's
    profile row. The price is shown but never debited. */
module ResourceStore {
  import opened Common

  datatype Kind = Ram | Disk | Cpu

  /** The three balances of a profile row. */
  datatype Credits = Credits(ramGb: int, diskGb: int, cpuCores: int)

  datatype Package = Package(title: string, kind: Kind, amount: int, price: real)

  /** The packages offered. */
  const Packages: seq<Package> := [
    Package("RAM Boost", Ram, 4, 5.0),
    Package("Disk Expansion", Disk, 50, 10.0),
    Package("CPU Upgrade", Cpu, 2, 8.0)
  ]

  /** One package per kind, with the amounts RAM 4, disk 50, CPU 2. */
  lemma PackageAmounts()
    ensures |Packages| == 3
    ensures forall i, j :: 0 <= i < j < |Packages| ==> Packages[i].kind != Packages[j].kind
    ensures forall i :: 0 <= i < |Packages| ==> Packages[i].amount == match Packages[i].kind
      case Ram => 4 case Disk => 50 case Cpu => 2
  {
  }

  function BalanceOf(c: Credits, k: Kind): int
  {
    match k
    case Ram => c.ramGb
    case Disk => c.diskGb
    case Cpu => c.cpuCores
  }

  /** The balance of kind `k` as the page reads it from its loaded profile:
      `profile?.field || 0`, so a profile not loaded counts as 0. */
  function LoadedBalance(profile: Option<Credits>, k: Kind): int
  {
    if profile.Some? then BalanceOf(profile.value, k) else 0
  }

  /** The update payload: a single field, the purchased kind's balance
      plus the amount. */
  function UpdatePayload(profile: Option<Credits>, k: Kind, amount: int): (payload: map<Kind, int>)
    ensures payload.Keys == {k}
    ensures payload[k] == LoadedBalance(profile, k) + amount
  {
    map[k := LoadedBalance(profile, k) + amount]
  }

  /** Writing a payload to a row: the fields it names are replaced. */
  function ApplyUpdate(row: Credits, payload: map<Kind, int>): (r: Credits)
    ensures forall k :: BalanceOf(r, k) == if k in payload then payload[k] else BalanceOf(row, k)
  {
    Credits(if Ram in payload then payload[Ram] else row.ramGb,
            if Disk in payload then payload[Disk] else row.diskGb,
            if Cpu in payload then payload[Cpu] else row.cpuCores)
  }

  /** A purchase made from an up-to-date profile adds `amount` to balance
      `k` and leaves the other two balances as they were. */
  lemma PurchaseAddsToOneBalance(row: Credits, k: Kind, amount: int)
    ensures BalanceOf(ApplyUpdate(row, UpdatePayload(Some(row), k, amount)), k) == BalanceOf(row, k) + amount
    ensures forall k' :: k' != k ==> BalanceOf(ApplyUpdate(row, UpdatePayload(Some(row), k, amount)), k') == BalanceOf(row, k')
  {
  }

  /** While the profile is not loaded the write sets balance `k` to
      `amount` itself, whatever the row held. */
  lemma UnloadedProfileOverwrites(row: Credits, k: Kind, amount: int)
    ensures BalanceOf(ApplyUpdate(row, UpdatePayload(None, k, amount)), k) == amount
  {
  }

  /** The store page with the profile row it writes. */
  class ResourceStorePage {
    var signedIn: bool
    /** The stored profile row. */
    var row: Credits
    /** The copy of the row the page has loaded, if any. */
    var profile: Option<Credits>
    var isPurchasing: bool

    constructor (signedIn: bool, row: Credits, profile: Option<Credits>)
      ensures this.signedIn == signedIn && this.row == row && this.profile == profile && !isPurchasing
    {
      this.signedIn, this.row, this.profile := signedIn, row, profile;
      isPurchasing := false;
    }

    /** Buy `amount` of kind `kind`; `price` is accepted and ignored, and
        `writeOk` is whether the update succeeds (on success the profile is
        fetched again, so the page shows the stored row). */
    method Purchase(kind: Kind, amount: int, price: real, writeOk: bool) returns (ok: bool)
      modifies this
      ensures ok <==> old(signedIn) && writeOk
      ensures !old(signedIn) ==> row == old(row) && profile == old(profile) && isPurchasing == old(isPurchasing)
      ensures old(signedIn) ==> !isPurchasing
      ensures row == if ok then ApplyUpdate(old(row), UpdatePayload(old(profile), kind, amount)) else old(row)
      ensures profile == if ok then Some(row) else old(profile)
      ensures signedIn == old(signedIn)
    {
      if !signedIn {
        return false;
      }
      isPurchasing := true;
      var payload := UpdatePayload(profile, kind, amount);
      if writeOk {
        row := ApplyUpdate(row, payload);
        profile := Some(row);
        ok := true;
      } else {
        ok := false;
      }
      isPurchasing := false;
    }
  }
}
