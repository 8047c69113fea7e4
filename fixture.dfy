/**
 * The six-record fixture of the repository's test suite and the outcomes the
 * suite expects of each query on it.
 */
module Fixture {
  import opened Wrappers
  import opened Sequences
  import opened Businesses
  import opened Fluent

  const Applebees := Business("abcd", "Applebee's", Some("Charlotte"), Some("NC"), Some(4.0), Some(6.0),
    None, None, Some(Attributes(Some(map["Marketing" := true]))))
  const ChinaGarden := Business("abcd", "China Garden", Some("Charlotte"), Some("NC"), Some(4.0), Some(10.0),
    None, None, Some(Attributes(Some(map["Marketing" := true, "BusinessOperation" := false]))))
  const BeachVentures := Business("abcd", "Beach Ventures Roofing", Some("Phoenix"), Some("AZ"), Some(3.0), Some(30.0),
    None, None, None)
  const AlpaulWash := Business("abcd", "Alpaul Automobile Wash", Some("Charlotte"), Some("NC"), Some(3.0), Some(30.0),
    None, None, None)
  const RomeroAngile := Business("cdef", "Cristiano Romero Angile", Some("Amherst"), Some("MA"), Some(3.0), None,
    Some(["Macma", "Tornado"]),
    Some(map["Tuesday" := "8:0-18:30", "Thursday" := "8:0-18:30", "Friday" := "8:0-18:30", "Saturday" := "8:0-14:0"]),
    None)
  const CristianoLinon := Business("efcd", "Cristiano Linon", Some("Boston"), Some("MA"), Some(9.0), Some(25.0),
    Some(["Tsunami", "Tornado"]),
    Some(map["Monday" := "0:0-0:0", "Tuesday" := "8:0-18:30", "Thursday" := "8:0-18:30", "Saturday" := "8:0-14:0"]),
    None)

  const TestData: seq<Business> := [Applebees, ChinaGarden, BeachVentures, AlpaulWash, RomeroAngile, CristianoLinon]

  /** Filtering the fixture is filtering each of its records in turn. */
  lemma FilterTestData(p: Business -> bool)
    ensures Filter(TestData, p) == Filter([Applebees], p) + Filter([ChinaGarden], p) + Filter([BeachVentures], p)
      + Filter([AlpaulWash], p) + Filter([RomeroAngile], p) + Filter([CristianoLinon], p)
  {
    var a, b, c, d, e, f := [Applebees], [ChinaGarden], [BeachVentures], [AlpaulWash], [RomeroAngile], [CristianoLinon];
    assert TestData == a + b + c + d + e + f;
    FilterAppend(a + b + c + d + e, f, p);
    FilterAppend(a + b + c + d, e, p);
    FilterAppend(a + b + c, d, p);
    FilterAppend(a + b, c, p);
    FilterAppend(a, b, p);
  }

  lemma CityFiltersOnFixture()
    ensures Filter(TestData, Keeps(CityInState("Charlotte", "NC"))) == [Applebees, ChinaGarden, AlpaulWash]
    ensures Filter(TestData, Keeps(CityInState("Holyoke", "MA"))) == []
    ensures Filter(TestData, Keeps(CityInState("Amherst", "MA"))) == [RomeroAngile]
  {
    FilterTestData(Keeps(CityInState("Charlotte", "NC")));
    FilterTestData(Keeps(CityInState("Holyoke", "MA")));
    FilterTestData(Keeps(CityInState("Amherst", "MA")));
  }

  lemma FromCityInStateOnFixture()
    ensures FluentBusinesses(TestData).FromCityInState("Charlotte", "NC").GetData() == [Applebees, ChinaGarden, AlpaulWash]
    ensures FluentBusinesses(TestData).FromCityInState("Holyoke", "MA").GetData() == []
    ensures FluentBusinesses(TestData).FromCityInState("Amherst", "MA").GetData() == [RomeroAngile]
  {
    CityFiltersOnFixture();
    assert FluentBusinesses(TestData).FromCityInState("Charlotte", "NC").data == Filter(TestData, Keeps(CityInState("Charlotte", "NC")));
    assert FluentBusinesses(TestData).FromCityInState("Holyoke", "MA").data == Filter(TestData, Keeps(CityInState("Holyoke", "MA")));
    assert FluentBusinesses(TestData).FromCityInState("Amherst", "MA").data == Filter(TestData, Keeps(CityInState("Amherst", "MA")));
  }

  /** In the Charlotte records, China Garden ranks best by stars, then reviews. */
  lemma CharlotteBestPlace()
    ensures FirstBestAt([Applebees, ChinaGarden, AlpaulWash], Stars, ReviewCount, 1)
  {
    MinValueIsTiny();
  }

  /** In the fixture, Beach Ventures Roofing ranks best by reviews, then stars. */
  lemma FixtureMostReviews()
    ensures FirstBestAt(TestData, ReviewCount, Stars, 2)
  {
    MinValueIsTiny();
  }

  /** Applebee's and China Garden tie on four stars; China Garden has more reviews. */
  lemma BestPlaceOnFixture()
    ensures FluentBusinesses(TestData).FromCityInState("Charlotte", "NC").BestPlace() == Some(ChinaGarden)
  {
    FromCityInStateOnFixture();
    CharlotteBestPlace();
  }

  /**
   * Beach Ventures Roofing and Alpaul Automobile Wash tie on thirty reviews
   * and on three stars; the earlier one wins.
   */
  lemma MostReviewsOnFixture()
    ensures FluentBusinesses(TestData).MostReviews() == Some(BeachVentures)
  {
    FixtureMostReviews();
  }

  /** The only Amherst record has no review count, so nothing is found. */
  lemma MostReviewsNoneOnFixture()
    ensures FluentBusinesses(TestData).FromCityInState("Amherst", "MA").MostReviews() == None
  {
    FromCityInStateOnFixture();
    AmherstMostReviews(FluentBusinesses(TestData).FromCityInState("Amherst", "MA"));
  }

  lemma AmherstMostReviews(fb: FluentBusinesses)
    requires fb.data == [RomeroAngile]
    ensures fb.MostReviews() == None
  {
    assert !FirstBestAt(fb.data, ReviewCount, Stars, 0);
  }

  lemma CategoryFiltersOnFixture()
    ensures Filter(TestData, Keeps(Category("Macma"))) == [RomeroAngile]
    ensures Filter(TestData, Keeps(Category("Ice"))) == []
    ensures Filter(TestData, Keeps(Category("Tornado"))) == [RomeroAngile, CristianoLinon]
  {
    FilterTestData(Keeps(Category("Macma")));
    FilterTestData(Keeps(Category("Ice")));
    FilterTestData(Keeps(Category("Tornado")));
  }

  lemma InCategoryOnFixture()
    ensures FluentBusinesses(TestData).InCategory("Macma").GetData() == [RomeroAngile]
    ensures FluentBusinesses(TestData).InCategory("Ice").GetData() == []
    ensures FluentBusinesses(TestData).InCategory("Tornado").GetData() == [RomeroAngile, CristianoLinon]
  {
    CategoryFiltersOnFixture();
    assert FluentBusinesses(TestData).InCategory("Macma").data == Filter(TestData, Keeps(Category("Macma")));
    assert FluentBusinesses(TestData).InCategory("Ice").data == Filter(TestData, Keeps(Category("Ice")));
    assert FluentBusinesses(TestData).InCategory("Tornado").data == Filter(TestData, Keeps(Category("Tornado")));
  }

  /** Which fixture records are open on Monday, Tuesday and Thursday, and on Wednesday and Sunday. */
  lemma HoursOnFixture()
    ensures forall b :: b in TestData && b != CristianoLinon ==> !Matches(HoursOnDays(["Monday", "Tuesday", "Thursday"]), b)
    ensures Matches(HoursOnDays(["Monday", "Tuesday", "Thursday"]), CristianoLinon)
    ensures forall b :: b in TestData ==> !Matches(HoursOnDays(["Wednesday", "Sunday"]), b)
  {
    var days, none := ["Monday", "Tuesday", "Thursday"], ["Wednesday", "Sunday"];
    assert days[0] == "Monday" && none[0] == "Wednesday";
  }

  lemma HoursFiltersOnFixture()
    ensures Filter(TestData, Keeps(HoursOnDays(["Monday", "Tuesday", "Thursday"]))) == [CristianoLinon]
    ensures Filter(TestData, Keeps(HoursOnDays(["Wednesday", "Sunday"]))) == []
  {
    HoursOnFixture();
    FilterTestData(Keeps(HoursOnDays(["Monday", "Tuesday", "Thursday"])));
    FilterTestData(Keeps(HoursOnDays(["Wednesday", "Sunday"])));
  }

  lemma HasHoursOnDaysOnFixture()
    ensures FluentBusinesses(TestData).HasHoursOnDays(["Monday", "Tuesday", "Thursday"]).GetData() == [CristianoLinon]
  {
    HoursFiltersOnFixture();
    assert FluentBusinesses(TestData).HasHoursOnDays(["Monday", "Tuesday", "Thursday"]).data == Filter(TestData, Keeps(HoursOnDays(["Monday", "Tuesday", "Thursday"])));
  }

  lemma HasHoursOnDaysNoneOnFixture()
    ensures FluentBusinesses(TestData).HasHoursOnDays(["Wednesday", "Sunday"]).GetData() == []
  {
    HoursFiltersOnFixture();
    assert FluentBusinesses(TestData).HasHoursOnDays(["Wednesday", "Sunday"]).data == Filter(TestData, Keeps(HoursOnDays(["Wednesday", "Sunday"])));
  }

  lemma AmbienceFiltersOnFixture()
    ensures Filter(TestData, Keeps(Ambience("Marketing"))) == [Applebees, ChinaGarden]
    ensures Filter(TestData, Keeps(Ambience("BusinessOperation"))) == []
  {
    MarketingOnFixture();
    BusinessOperationOnFixture();
  }

  lemma MarketingOnFixture()
    ensures Filter(TestData, Keeps(Ambience("Marketing"))) == [Applebees, ChinaGarden]
  {
    FilterTestData(Keeps(Ambience("Marketing")));
  }

  lemma BusinessOperationOnFixture()
    ensures Filter(TestData, Keeps(Ambience("BusinessOperation"))) == []
  {
    assert !Matches(Ambience("BusinessOperation"), ChinaGarden);
    FilterTestData(Keeps(Ambience("BusinessOperation")));
  }

  /** China Garden's `BusinessOperation` flag is present but false, so it is not kept. */
  lemma HasAmbienceOnFixture()
    ensures FluentBusinesses(TestData).HasAmbience("Marketing").GetData() == [Applebees, ChinaGarden]
    ensures FluentBusinesses(TestData).HasAmbience("BusinessOperation").GetData() == []
  {
    AmbienceFiltersOnFixture();
    assert FluentBusinesses(TestData).HasAmbience("Marketing").data == Filter(TestData, Keeps(Ambience("Marketing")));
    assert FluentBusinesses(TestData).HasAmbience("BusinessOperation").data == Filter(TestData, Keeps(Ambience("BusinessOperation")));
  }

  lemma StarsFiltersOnFixture()
    ensures Filter(TestData, Keeps(StarsGeq(100.0))) == []
    ensures Filter(TestData, Keeps(StarsGeq(4.0))) == [Applebees, ChinaGarden, CristianoLinon]
  {
    FilterTestData(Keeps(StarsGeq(100.0)));
    FilterTestData(Keeps(StarsGeq(4.0)));
  }

  lemma HasStarsGeqOnFixture()
    ensures FluentBusinesses(TestData).HasStarsGeq(100.0).GetData() == []
    ensures FluentBusinesses(TestData).HasStarsGeq(4.0).GetData() == [Applebees, ChinaGarden, CristianoLinon]
  {
    StarsFiltersOnFixture();
    assert FluentBusinesses(TestData).HasStarsGeq(100.0).data == Filter(TestData, Keeps(StarsGeq(100.0)));
    assert FluentBusinesses(TestData).HasStarsGeq(4.0).data == Filter(TestData, Keeps(StarsGeq(4.0)));
  }

  /** A record rated zero stars never reaches the positive starting value of the running maximum. */
  const ZeroRated := Business("zero", "Zero Rated", Some("Holyoke"), Some("MA"), Some(0.0), Some(5.0), None, None, None)

  lemma ZeroRatedIsNeverBest()
    ensures FluentBusinesses([ZeroRated]).BestPlace() == None
    ensures FluentBusinesses([ZeroRated]).MostReviews() == None
  {
    MinValueIsTiny();
    assert !FirstBestAt([ZeroRated], Stars, ReviewCount, 0);
    assert !FirstBestAt([ZeroRated], ReviewCount, Stars, 0);
  }
}
