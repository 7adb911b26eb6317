/**
 * The feature counts a WFS response carries on its root element
 * (`numberMatched`, `numberReturned`, `numberOfFeatures`) and the running
 * totals the merge keeps of them.
 */
module Counts {
  import opened Wrappers
  import opened Text

  /** The attributes of a parsed document's root element. */
  type Attrs = map<string, string>

  datatype Kind = Matched | Returned | OfFeatures

  function AttrName(k: Kind): string {
    match k
    case Matched => "numberMatched"
    case Returned => "numberReturned"
    case OfFeatures => "numberOfFeatures"
  }

  /**
   * `int(root.get(name))`; None where Python raises: TypeError for a missing
   * attribute, ValueError for text that is not an integer.
   */
  function AttrInt(attrs: Attrs, k: Kind): Option<int> {
    if AttrName(k) in attrs then ParseInt(attrs[AttrName(k)]) else None
  }

  /** A running total, or Python's `False` for a kind the seed file does not carry. */
  datatype Count = Untracked | Tracked(n: int)

  datatype Totals = Totals(matched: Count, returned: Count, ofFeatures: Count) {
    function Get(k: Kind): Count {
      match k
      case Matched => matched
      case Returned => returned
      case OfFeatures => ofFeatures
    }
  }

  /** `try: total = int(first_root.get(name)) except (ValueError, TypeError): total = False`. */
  function SeedCount(attrs: Attrs, k: Kind): Count {
    match AttrInt(attrs, k)
    case Some(n) => Tracked(n)
    case None => Untracked
  }

  function SeedTotals(attrs: Attrs): Totals {
    Totals(SeedCount(attrs, Matched), SeedCount(attrs, Returned), SeedCount(attrs, OfFeatures))
  }

  /** Python's `total == 0`, which `False == 0` makes true for an untracked kind. */
  predicate IsZero(c: Count) {
    c.Untracked? || c.n == 0
  }

  /** The skip test `number_matched == 0 and number_returned == 0 and number_offeatures == 0`. */
  predicate AllZero(t: Totals) {
    IsZero(t.matched) && IsZero(t.returned) && IsZero(t.ofFeatures)
  }

  /** `if total is not False: total += int(root.get(name))`; None where that raises. */
  function AddCount(c: Count, attrs: Attrs, k: Kind): Option<Count> {
    if c.Untracked? then Some(c)
    else match AttrInt(attrs, k)
      case None => None
      case Some(n) => Some(Tracked(c.n + n))
  }

  /** The three additions in the order the merge loop makes them; the error names the kind that raised. */
  function AddAll(t: Totals, attrs: Attrs): Result<Totals, Kind> {
    match AddCount(t.matched, attrs, Matched)
    case None => Err(Matched)
    case Some(m) =>
      match AddCount(t.returned, attrs, Returned)
      case None => Err(Returned)
      case Some(r) =>
        match AddCount(t.ofFeatures, attrs, OfFeatures)
        case None => Err(OfFeatures)
        case Some(f) => Ok(Totals(m, r, f))
  }

  /** Every kind the totals track has an integer attribute in `attrs`. */
  predicate Readable(t: Totals, attrs: Attrs) {
    forall k: Kind :: t.Get(k).Tracked? ==> AttrInt(attrs, k).Some?
  }

  /** A kind is tracked exactly when the seed's attribute reads as an integer, and starts at that integer. */
  lemma SeedTracking(attrs: Attrs, k: Kind)
    ensures SeedTotals(attrs).Get(k).Tracked? <==> AttrInt(attrs, k).Some?
    ensures SeedTotals(attrs).Get(k).Tracked? ==> SeedTotals(attrs).Get(k).n == AttrInt(attrs, k).value
  {
    match k
    case Matched =>
    case Returned =>
    case OfFeatures =>
  }

  /**
   * Adding a file's counts succeeds exactly when the file carries every
   * tracked attribute as an integer; it keeps each kind tracked or untracked
   * and adds the file's value to each tracked total.
   */
  lemma AddAllSpec(t: Totals, attrs: Attrs)
    ensures AddAll(t, attrs).Ok? <==> Readable(t, attrs)
    ensures AddAll(t, attrs).Ok? ==> forall k: Kind ::
      && (AddAll(t, attrs).value.Get(k).Tracked? <==> t.Get(k).Tracked?)
      && (t.Get(k).Tracked? ==> AddAll(t, attrs).value.Get(k).n == t.Get(k).n + AttrInt(attrs, k).value)
  {
    if !Readable(t, attrs) {
      var k: Kind :| t.Get(k).Tracked? && AttrInt(attrs, k).None?;
      match k
      case Matched =>
      case Returned =>
      case OfFeatures =>
    }
  }

  /**
   * The reported kind is tracked and unreadable, and the kinds added before it
   * (matched, then returned) were readable wherever they are tracked.
   */
  lemma AddAllFirstError(t: Totals, attrs: Attrs)
    requires AddAll(t, attrs).Err?
    ensures var k := AddAll(t, attrs).error;
      t.Get(k).Tracked? && AttrInt(attrs, k).None?
    ensures AddAll(t, attrs).error != Matched ==>
      (t.matched.Tracked? ==> AttrInt(attrs, Matched).Some?)
    ensures AddAll(t, attrs).error == OfFeatures ==>
      (t.returned.Tracked? ==> AttrInt(attrs, Returned).Some?)
  {
  }
}
