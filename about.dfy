/** The about section's figures: the whole years of experience since the
    start date, and the project and certificate totals read from the cache. */
module About {
  import opened Common

  /** A calendar date; months are numbered from 1. */
  datatype Date = Date(year: int, month: int, day: int)

  /** The start date, 12 February 2024. */
  const START := Date(2024, 2, 12)

  /** `a < b` on dates: earlier year, or same year and earlier month, or same month and earlier day. */
  function Before(a: Date, b: Date): (r: bool)
    ensures r ==> a != b
    ensures a.year != b.year ==> (r <==> a.year < b.year)
    ensures a.year == b.year && a.month != b.month ==> (r <==> a.month < b.month)
    ensures a.year == b.year && a.month == b.month ==> (r <==> a.day < b.day)
  {
    a.year < b.year
    || (a.year == b.year && a.month < b.month)
    || (a.year == b.year && a.month == b.month && a.day < b.day)
  }

  /** The `k`-th anniversary of the start date. */
  function Anniversary(k: int): Date
  {
    Date(START.year + k, START.month, START.day)
  }

  /** The year difference, less one when today falls before this year's
      anniversary day. The anniversary day itself counts. */
  function YearsOfExperience(today: Date): (years: int)
    ensures !Before(today, Anniversary(years)) && Before(today, Anniversary(years + 1))
  {
    today.year - START.year - (if Before(today, Date(today.year, START.month, START.day)) then 1 else 0)
  }

  /** The figure is the number of complete years elapsed: the only `k` whose
      anniversary has been reached while the next one has not. */
  lemma YearsAreCompleteYears(today: Date, k: int)
    requires !Before(today, Anniversary(k)) && Before(today, Anniversary(k + 1))
    ensures k == YearsOfExperience(today)
  {
  }

  /** On an anniversary day itself that year already counts, and the day
      before it does not. */
  lemma AnniversaryDayCounts(k: int)
    ensures YearsOfExperience(Anniversary(k)) == k
    ensures YearsOfExperience(Date(START.year + k, START.month, START.day - 1)) == k - 1
  {
  }

  /** The figure never decreases as today advances, and it is not negative
      from the start date on. */
  lemma YearsMonotone(d1: Date, d2: Date)
    requires !Before(d2, d1)
    ensures YearsOfExperience(d1) <= YearsOfExperience(d2)
    ensures !Before(d1, START) ==> YearsOfExperience(d1) >= 0
  {
  }

  datatype Stat = Stat(name: string, value: int)

  /** The three figures shown in the stats cards, in their order. */
  function StatsData<P, C>(storedProjects: Option<seq<P>>, storedCertificates: Option<seq<C>>, today: Date): (r: seq<Stat>)
    ensures |r| == 3
    ensures r[0].name == "Total Projects" && r[1].name == "Certificates"
    ensures r[0].value == (if storedProjects.Some? then |storedProjects.value| else 0)
    ensures r[1].value == (if storedCertificates.Some? then |storedCertificates.value| else 0)
    ensures r[2].name == "Years of Experience"
    ensures !Before(today, Anniversary(r[2].value)) && Before(today, Anniversary(r[2].value + 1))
  {
    [ Stat("Total Projects", LengthOrZero(storedProjects)),
      Stat("Certificates", LengthOrZero(storedCertificates)),
      Stat("Years of Experience", YearsOfExperience(today)) ]
  }
}
