/** The job card of the listing: skill chips with an overflow chip, the description excerpt,
    the application count and the salary line. */
module JobCard {
  import opened Wrappers
  import opened Seqs
  import opened Store
  import opened Helpers
  import opened Session
  import PostJob
  import opened JobContext

  /** How many skill chips a card shows. */
  const ChipLimit: nat := 4

  /** How long the description excerpt may be. */
  const ExcerptLength := 100

  /** A digit's character. */
  function Digit(d: nat): (c: char)
    requires d < 10
    ensures '0' <= c <= '9'
  {
    ('0' as int + d) as char
  }

  /** How JSX renders a non-negative integer: its decimal digits, with no leading zero. */
  function Decimal(n: nat): (s: string)
    ensures |s| >= 1
    ensures forall k :: 0 <= k < |s| ==> '0' <= s[k] <= '9'
    ensures s[0] == '0' ==> s == "0"
    decreases n
  {
    if n < 10 then [Digit(n)] else Decimal(n / 10) + [Digit(n % 10)]
  }

  /** The number a string of decimal digits stands for, read left to right. */
  function DigitsValue(s: string): int
    decreases |s|
  {
    if s == [] then 0 else DigitsValue(s[..|s| - 1]) * 10 + (s[|s| - 1] as int - '0' as int)
  }

  /** Reading the rendered digits back gives the number. */
  lemma {:induction false} DecimalValue(n: nat)
    ensures DigitsValue(Decimal(n)) == n
    decreases n
  {
    var s := Decimal(n);
    if n < 10 {
      assert s[..0] == [];
    } else {
      DecimalValue(n / 10);
      assert s[..|s| - 1] == Decimal(n / 10);
    }
  }

  /** The skills part of a card: none at all, or the chips and an optional "+n more" chip. */
  datatype SkillsView = NoSkillsSection | SkillsSection(chips: seq<string>, more: Option<string>)

  /** `skills && skills.length > 0 && (...)`. */
  function SkillsOf(skills: Option<seq<string>>): (v: SkillsView)
    ensures v.NoSkillsSection? <==> skills.None? || |skills.value| == 0
    ensures v.SkillsSection? ==> v.chips <= skills.value && |v.chips| <= ChipLimit
    ensures v.SkillsSection? ==> (v.more.Some? <==> |skills.value| > ChipLimit)
    ensures v.SkillsSection? && v.more.Some? ==> v.more.value == "+" + Decimal(|skills.value| - ChipLimit) + " more"
  {
    if skills.None? || |skills.value| == 0 then NoSkillsSection
    else
      var n := |skills.value|;
      SkillsSection(Take(skills.value, ChipLimit),
                    if n > ChipLimit then Some("+" + Decimal(n - ChipLimit) + " more") else None)
  }

  /** Every skill is accounted for: the chips are the first skills, and the overflow chip counts
      exactly the rest. */
  lemma SkillsAccountedFor(skills: seq<string>)
    requires |skills| > 0
    ensures var v := SkillsOf(Some(skills));
            && v.chips + skills[|v.chips|..] == skills
            && |v.chips| + (if v.more.Some? then |skills| - ChipLimit else 0) == |skills|
  {
  }

  /** `truncateText(description, 100)`: a description of at most 100 characters whole, a
      longer one cut to its first 100 and "...", nothing when there is none. */
  function Excerpt(j: Job): (r: string)
    ensures r == TruncateText(j.data.description, ExcerptLength)
    ensures |r| <= ExcerptLength + 3
    ensures j.data.description.None? ==> r == ""
    ensures j.data.description.Some? && |j.data.description.value| <= ExcerptLength ==> r == j.data.description.value
    ensures j.data.description.Some? && |j.data.description.value| > ExcerptLength ==>
      r == j.data.description.value[..ExcerptLength] + "..."
  {
    TruncateBound(j.data.description, ExcerptLength);
    TruncateText(j.data.description, ExcerptLength)
  }

  /** The salary line `formatSalary(salaryMin, salaryMax)`. */
  function SalaryLine(j: Job, show: int -> string): (r: Outcome<string>)
    ensures r.Threw? <==> j.data.salaryMin.None? && Truthy(j.data.salaryMax)
    ensures !Truthy(j.data.salaryMin) && !Truthy(j.data.salaryMax) ==> r == Returned("Salary not specified")
    ensures Truthy(j.data.salaryMin) && Truthy(j.data.salaryMax) ==>
      r == Returned("Rs. " + show(j.data.salaryMin.value) + " - Rs. " + show(j.data.salaryMax.value))
  {
    FormatSalary(j.data.salaryMin, j.data.salaryMax, show)
  }

  /** A job posted with an empty minimum and a non-zero maximum breaks its card: the salary
      line throws while rendering. */
  lemma CardBreaksOnMaximumOnly(f: PostJob.Form, user: User, profile: Profile, parseInt: string -> int,
                                parseDate: string -> int, now: int, j: Job, show: int -> string)
    requires f.salaryMin == "" && f.salaryMax != "" && parseInt(f.salaryMax) != 0
    requires j.data == StoredJobData(PostJob.BuildJobData(f, user, profile, parseInt, parseDate, now), user.uid, j.postedAt)
    ensures SalaryLine(j, show).Threw?
  {
  }
}
