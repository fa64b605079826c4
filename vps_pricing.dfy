/** The monthly price shown on the create-server form, computed from the
    CPU, RAM and storage sliders and the backups switch. */
module VpsPricing {
  import opened Common

  datatype Config = Config(cpu: int, ramGb: int, storageGb: int, backups: bool)

  /** The form's starting values. */
  const DefaultConfig := Config(2, 4, 40, false)

  /** The values the sliders can produce: CPU 1..8 in steps of 1, RAM 2..32
      in steps of 2, storage 20..500 in steps of 10. */
  predicate OnSliders(c: Config)
  {
    1 <= c.cpu <= 8
    && 2 <= c.ramGb <= 32 && c.ramGb % 2 == 0
    && 20 <= c.storageGb <= 500 && c.storageGb % 10 == 0
  }

  function Max0(x: int): (r: int)
    ensures r >= 0 && r >= x && (r == 0 || r == x)
  {
    if x < 0 then 0 else x
  }

  /** The monthly price in dollars: a base of 8 for 1 CPU and 2 GB, 2 per
      further CPU, 1.5 per further GB of RAM, 0.1 per GB of storage above
      20, and 3 for backups. */
  function MonthlyPrice(c: Config): (r: real)
    ensures c.cpu >= 1 && c.ramGb >= 2 ==> r >= 8.0
    ensures c.backups ==> r >= 3.0 + 8.0 + (c.cpu - 1) as real * 2.0 + (c.ramGb - 2) as real * 1.5
  {
    8.0 + (c.cpu - 1) as real * 2.0 + (c.ramGb - 2) as real * 1.5
    + Max0(c.storageGb - 20) as real * 0.1
    + (if c.backups then 3.0 else 0.0)
  }

  /** The smallest configuration costs the base price, the default one 15. */
  lemma BaseAndDefaultPrices()
    ensures MonthlyPrice(Config(1, 2, 20, false)) == 8.0
    ensures MonthlyPrice(DefaultConfig) == 15.0
    ensures OnSliders(DefaultConfig)
  {
  }

  /** The first 20 GB of storage are free. */
  lemma StorageUpTo20IsFree(c: Config)
    requires c.storageGb <= 20
    ensures MonthlyPrice(c) == MonthlyPrice(c.(storageGb := 20))
  {
  }

  /** Backups add exactly 3. */
  lemma BackupsAddThree(c: Config)
    ensures MonthlyPrice(c.(backups := true)) == MonthlyPrice(c.(backups := false)) + 3.0
  {
  }

  /** More of any resource never costs less; more CPU or RAM always costs
      more. */
  lemma PriceMonotone(c: Config, d: Config)
    requires c.cpu <= d.cpu && c.ramGb <= d.ramGb && c.storageGb <= d.storageGb
    requires c.backups ==> d.backups
    ensures MonthlyPrice(c) <= MonthlyPrice(d)
    ensures c.cpu < d.cpu || c.ramGb < d.ramGb ==> MonthlyPrice(c) < MonthlyPrice(d)
  {
  }

  /** The price in whole dollars, on the slider values. */
  function WholePrice(c: Config): int
  {
    8 + (c.cpu - 1) * 2 + (c.ramGb - 2) / 2 * 3 + (c.storageGb - 20) / 10
    + (if c.backups then 3 else 0)
  }

  /** Every configuration the sliders allow costs a whole number of dollars
      between 8 and 118. */
  lemma {:induction false} SliderPricesAreWholeDollars(c: Config)
    requires OnSliders(c)
    ensures MonthlyPrice(c) == WholePrice(c) as real
    ensures 8 <= WholePrice(c) <= 118
  {
    var r := (c.ramGb - 2) / 2;
    assert c.ramGb - 2 == 2 * r;
    assert (c.ramGb - 2) as real * 1.5 == (r * 3) as real;
    var s := (c.storageGb - 20) / 10;
    assert c.storageGb - 20 == 10 * s;
    assert Max0(c.storageGb - 20) as real * 0.1 == s as real;
  }

  /** The submit button is disabled while creating or while the name is
      empty after trimming. */
  function SubmitDisabled(isCreating: bool, name: string): (r: bool)
    ensures !isCreating && name != "" && !IsSpace(name[0]) ==> !r
  {
    TrimEmptyIffBlank(name);
    isCreating || Trim(name) == ""
  }

  /** A name made only of white space cannot be submitted. */
  lemma SubmitNeedsVisibleName(isCreating: bool, name: string)
    ensures SubmitDisabled(isCreating, name) <==> isCreating || Blank(name)
  {
    TrimEmptyIffBlank(name);
  }
}
