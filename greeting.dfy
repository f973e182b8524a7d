/** The `GreetingService` class of src/myapp/app.py. Its only attribute, `name`,
    is set by the constructor and never reassigned, so the service is a value.
    The clock-reading members are not modelled: `is_weekend` takes the weekday
    index of the date (Monday = 0, ..., Sunday = 6) that Python's
    `date.weekday()` would compute. */
module Greeting {
  import opened Outcome

  /** A greeting service; `GreetingService()` uses the default name "World". */
  datatype GreetingService = GreetingService(name: string := "World")

  const GreetingPrefix: string := "Hello "
  const GreetingSuffix: string := " from Jenkins Pipeline!"

  /** The greeting: the name, preceded by "Hello " and followed by
      " from Jenkins Pipeline!". */
  function GetGreeting(service: GreetingService): (g: string)
    ensures |g| == |GreetingPrefix| + |service.name| + |GreetingSuffix|
    ensures g[..|GreetingPrefix|] == GreetingPrefix
    ensures g[|GreetingPrefix|..|g| - |GreetingSuffix|] == service.name
    ensures g[|g| - |GreetingSuffix|..] == GreetingSuffix
  {
    GreetingPrefix + service.name + GreetingSuffix
  }

  /** Recovers the name from a greeting, or `None` if the text is not a greeting. */
  function ParseGreeting(g: string): (name: Option<string>)
    ensures name.Some? ==> |g| >= |GreetingPrefix| + |GreetingSuffix|
  {
    if |g| >= |GreetingPrefix| + |GreetingSuffix|
       && g[..|GreetingPrefix|] == GreetingPrefix
       && g[|g| - |GreetingSuffix|..] == GreetingSuffix
    then Some(g[|GreetingPrefix|..|g| - |GreetingSuffix|])
    else None
  }

  /** Parsing a greeting gives back the service's name. */
  lemma ParseGetGreeting(service: GreetingService)
    ensures ParseGreeting(GetGreeting(service)) == Some(service.name)
  {
  }

  /** Every text that parses as a greeting is the greeting of the parsed name. */
  lemma GetGreetingOfParsed(g: string, name: string)
    requires ParseGreeting(g) == Some(name)
    ensures GetGreeting(GreetingService(name)) == g
  {
  }

  /** Two services greet alike only if they have the same name. */
  lemma GetGreetingInjective(s1: GreetingService, s2: GreetingService)
    requires GetGreeting(s1) == GetGreeting(s2)
    ensures s1 == s2
  {
  }

  /** The default service is named "World" and so are the greetings of the tests. */
  lemma GreetingExamples()
    ensures GreetingService().name == "World"
    ensures GetGreeting(GreetingService()) == "Hello World from Jenkins Pipeline!"
    ensures GetGreeting(GreetingService("Jenkins")) == "Hello Jenkins from Jenkins Pipeline!"
  {
    GreetingIs("World", "Hello World from Jenkins Pipeline!");
    GreetingIs("Jenkins", "Hello Jenkins from Jenkins Pipeline!");
  }

  /** A greeting agrees with a text that has its length and its characters. */
  lemma GreetingIs(name: string, expected: string)
    requires |expected| == |GreetingPrefix| + |name| + |GreetingSuffix|
    requires forall i :: 0 <= i < |expected| ==> expected[i] == (GreetingPrefix + name + GreetingSuffix)[i]
    ensures GetGreeting(GreetingService(name)) == expected
  {
  }

  /** The index `date.weekday()` returns: Monday is 0 and Sunday is 6. */
  type WeekdayIndex = i: int | 0 <= i < 7

  datatype Day = Monday | Tuesday | Wednesday | Thursday | Friday | Saturday | Sunday

  /** The day a weekday index stands for. */
  function DayOf(i: WeekdayIndex): (d: Day)
    ensures IndexOf(d) == i
  {
    match i
    case 0 => Monday
    case 1 => Tuesday
    case 2 => Wednesday
    case 3 => Thursday
    case 4 => Friday
    case 5 => Saturday
    case 6 => Sunday
  }

  /** The weekday index of a day, the inverse of `DayOf`. */
  function IndexOf(d: Day): (i: WeekdayIndex)
  {
    match d
    case Monday => 0
    case Tuesday => 1
    case Wednesday => 2
    case Thursday => 3
    case Friday => 4
    case Saturday => 5
    case Sunday => 6
  }

  /** `is_weekend` for a date whose weekday index is `weekday`: true exactly on
      Saturday and Sunday, whatever the service's name. */
  function IsWeekend(service: GreetingService, weekday: WeekdayIndex): (r: bool)
    ensures r <==> DayOf(weekday) == Saturday || DayOf(weekday) == Sunday
  {
    weekday >= 5
  }

  lemma DayOfIndexOf(d: Day)
    ensures DayOf(IndexOf(d)) == d
  {
  }

  /** The dates of the tests: 2023-01-02 is a Monday, 2023-01-07 a Saturday and
      2023-01-08 a Sunday. */
  lemma IsWeekendExamples(service: GreetingService)
    ensures !IsWeekend(service, IndexOf(Monday))
    ensures IsWeekend(service, IndexOf(Saturday))
    ensures IsWeekend(service, IndexOf(Sunday))
  {
  }
}
