/**
 * `TicketPredictor.generate_sample_data` (ml_predictions.py:44-110): the
 * synthetic fallback corpus, six phrases for each of the six categories.
 *
 * The random parts (`np.random.choice(priorities)` and the normal samples)
 * come in through `draw`: `draw(i)` is the priority picked for row `i` and a
 * standard-normal value `z`, so that `np.random.normal(mean, sd)` is
 * `mean + sd * z`.
 */
module SampleData {

  /** One row of training data: a ticket text, its category, priority and hours to resolve. */
  datatype Example = Example(description: string, category: string, priority: string, hours: real)

  datatype Priority = Low | Medium | High | Critical

  /** What the random generator yields for one row. */
  datatype Draw = Draw(priority: Priority, z: real)

  const Categories: seq<string> :=
    ["Technical Issue", "Account Support", "Billing", "Feature Request", "Bug Report", "General Inquiry"]

  const PhrasesPerCategory: nat := 6
  const RowCount: nat := 36

  /** The six sample descriptions of the category at position `k`. */
  function Phrases(k: nat): (ps: seq<string>)
    requires k < |Categories|
    ensures |ps| == PhrasesPerCategory
  {
    match k
    case 0 => ["cannot login to system", "password reset not working", "system crashes frequently",
               "slow performance issues", "connection timeout errors", "database connection failed"]
    case 1 => ["need to update profile information", "account locked out", "forgot username",
               "change email address", "deactivate account", "account permissions issue"]
    case 2 => ["incorrect charges on invoice", "payment method update", "refund request",
               "billing cycle questions", "subscription cancellation", "pricing inquiry"]
    case 3 => ["add new dashboard widget", "export data functionality", "mobile app feature",
               "integration with third party", "custom reporting options", "user interface improvements"]
    case 4 => ["button not responding", "data not saving properly", "incorrect calculations",
               "page loading errors", "missing information display", "form validation issues"]
    case _ => ["how to use new feature", "training materials request", "system requirements",
               "best practices guidance", "documentation questions", "general support"]
  }

  function PriorityName(p: Priority): string {
    match p
    case Low => "Low"
    case Medium => "Medium"
    case High => "High"
    case Critical => "Critical"
  }

  /** Mean and standard deviation of the base resolution time, in hours, for a priority. */
  function BaseMean(p: Priority): real {
    match p
    case Critical => 2.0
    case High => 8.0
    case Medium => 24.0
    case Low => 72.0
  }

  function BaseSd(p: Priority): real {
    match p
    case Critical => 0.5
    case High => 2.0
    case Medium => 6.0
    case Low => 12.0
  }

  /** The per-category multiplier applied to the base time. */
  function CategoryModifier(k: nat): real
    requires k < |Categories|
  {
    match k
    case 0 => 1.2   // Technical Issue
    case 1 => 0.6   // Account Support
    case 2 => 0.8   // Billing
    case 3 => 2.0   // Feature Request
    case 4 => 1.5   // Bug Report
    case _ => 0.5   // General Inquiry
  }

  /** `max(1, base_time * category_modifier)`. */
  function ResolutionHours(d: Draw, k: nat): real
    requires k < |Categories|
  {
    var t := (BaseMean(d.priority) + BaseSd(d.priority) * d.z) * CategoryModifier(k);
    if 1.0 < t then t else 1.0
  }

  /** Row `i` of the generated table: category `i / 6`, phrase `i % 6`. */
  function SampleRow(draw: nat -> Draw, i: nat): Example
    requires i < RowCount
  {
    var k, j := i / PhrasesPerCategory, i % PhrasesPerCategory;
    Example(Phrases(k)[j], Categories[k], PriorityName(draw(i).priority), ResolutionHours(draw(i), k))
  }

  /** The whole generated table, as a value. */
  function SampleRows(draw: nat -> Draw): seq<Example> {
    seq(RowCount, i requires 0 <= i < RowCount => SampleRow(draw, i))
  }

  /** `data` holds the first `|data|` rows of the generated table. */
  ghost predicate RowsSoFar(draw: nat -> Draw, data: seq<Example>) {
    |data| <= RowCount && data == SampleRows(draw)[..|data|]
  }

  /** `generate_sample_data()`: the nested loop over categories and their phrases. */
  method GenerateSampleData(draw: nat -> Draw) returns (data: seq<Example>)
    ensures data == SampleRows(draw)
  {
    data := [];
    var k := 0;
    while k < |Categories|
      invariant 0 <= k <= |Categories|
      invariant |data| == k * PhrasesPerCategory
      invariant RowsSoFar(draw, data)
    {
      var phrases := Phrases(k);
      var j := 0;
      while j < |phrases|
        invariant 0 <= j <= |phrases|
        invariant |data| == k * PhrasesPerCategory + j
        invariant RowsSoFar(draw, data)
      {
        var d := draw(|data|);
        var hours := ResolutionHours(d, k);
        var row := Example(phrases[j], Categories[k], PriorityName(d.priority), hours);
        RowAt(draw, k, j);
        PrefixSnoc(SampleRows(draw), data);
        data := data + [row];
        j := j + 1;
      }
      k := k + 1;
    }
    assert data == SampleRows(draw)[..RowCount];
  }

  /** Appending phrase `j` of category `k` at position 6k + j extends the generated prefix. */
  /** Appending the next element of `all` to a prefix of `all` gives the next prefix. */
  lemma PrefixSnoc<T>(all: seq<T>, data: seq<T>)
    requires |data| < |all| && data == all[..|data|]
    ensures data + [all[|data|]] == all[..|data| + 1]
  {
  }

  /** Row 6k + j of the table is phrase `j` of category `k` with the draw for that row. */
  lemma RowAt(draw: nat -> Draw, k: nat, j: nat)
    requires k < |Categories| && j < PhrasesPerCategory
    ensures k * PhrasesPerCategory + j < RowCount
    ensures SampleRow(draw, k * PhrasesPerCategory + j) ==
      Example(Phrases(k)[j], Categories[k], PriorityName(draw(k * PhrasesPerCategory + j).priority),
        ResolutionHours(draw(k * PhrasesPerCategory + j), k))
  {
    RowPosition(k, j);
  }

  /** Row 6k + j is phrase `j` of category `k`. */
  lemma RowPosition(k: nat, j: nat)
    requires j < PhrasesPerCategory
    ensures (k * PhrasesPerCategory + j) / PhrasesPerCategory == k
    ensures (k * PhrasesPerCategory + j) % PhrasesPerCategory == j
  {
  }

  /** The six category names are pairwise different. */
  lemma CategoriesDistinct()
    ensures forall a, b | 0 <= a < b < |Categories| :: Categories[a] != Categories[b]
  {
  }

  /**
   * Exactly 36 rows; the rows of category `k` are the six rows 6k..6k+5, so
   * the categories come in their fixed order, six rows each.
   */
  lemma SampleShape(draw: nat -> Draw)
    ensures |SampleRows(draw)| == 36
    ensures forall i, k | 0 <= i < 36 && 0 <= k < |Categories| ::
      SampleRows(draw)[i].category == Categories[k] <==> 6 * k <= i < 6 * k + 6
  {
    CategoriesDistinct();
    forall i, k | 0 <= i < 36 && 0 <= k < |Categories|
      ensures SampleRows(draw)[i].category == Categories[k] <==> 6 * k <= i < 6 * k + 6
    {
      assert SampleRows(draw)[i].category == Categories[i / 6];
      assert i / 6 == k <==> 6 * k <= i < 6 * k + 6;
    }
  }

  /** Every one of the six categories labels at least one row, so the classifier sees every label. */
  lemma EveryCategoryPresent(draw: nat -> Draw)
    ensures forall c | c in Categories :: exists i | 0 <= i < |SampleRows(draw)| :: SampleRows(draw)[i].category == c
  {
    SampleShape(draw);
    forall c | c in Categories
      ensures exists i | 0 <= i < |SampleRows(draw)| :: SampleRows(draw)[i].category == c
    {
      var k :| 0 <= k < |Categories| && Categories[k] == c;
      assert SampleRows(draw)[6 * k].category == Categories[k];
    }
  }

  /** Every generated resolution time is at least one hour, whatever the random draws. */
  lemma SampleHoursAtLeastOne(draw: nat -> Draw)
    ensures forall i | 0 <= i < |SampleRows(draw)| :: SampleRows(draw)[i].hours >= 1.0
  {
  }
}
