/** The fixtures the dashboard starts from: five members, two groups and five
    expenses. Dates are the time values of the ISO dates at UTC midnight. */
module SeedData {
  import opened Types

  const Alice := Member("1", "Alice", "avatar-alice")
  const Bob := Member("2", "Bob", "avatar-bob")
  const Charlie := Member("3", "Charlie", "avatar-charlie")
  const Diana := Member("4", "Diana", "avatar-diana")
  const Ethan := Member("5", "Ethan", "avatar-ethan")

  const Members: seq<Member> := [Alice, Bob, Charlie, Diana, Ethan]

  const TripToMountains := Group("g1", "Trip to Mountains", [Alice, Bob, Charlie])
  const WeekendProject := Group("g2", "Weekend Project", [Alice, Diana, Ethan])

  const Groups: seq<Group> := [TripToMountains, WeekendProject]

  const July15: Date := 1721001600000
  const July16: Date := 1721088000000
  const July20: Date := 1721433600000
  const July21: Date := 1721520000000

  const Groceries := Expense("e1", "Groceries", 90.0, "1",
    [SplitEntry("1", 30.0), SplitEntry("2", 30.0), SplitEntry("3", 30.0)], July20, "g1")
  const Gas := Expense("e2", "Gas", 50.0, "2",
    [SplitEntry("1", 25.0), SplitEntry("2", 25.0)], July20, "g1")
  const Dinner := Expense("e3", "Dinner", 120.0, "3",
    [SplitEntry("1", 40.0), SplitEntry("2", 40.0), SplitEntry("3", 40.0)], July21, "g1")
  const ServerHosting := Expense("e4", "Server Hosting", 60.0, "4",
    [SplitEntry("1", 20.0), SplitEntry("4", 20.0), SplitEntry("5", 20.0)], July15, "g2")
  const Pizza := Expense("e5", "Pizza", 25.0, "5",
    [SplitEntry("1", 10.0), SplitEntry("4", 10.0), SplitEntry("5", 5.0)], July16, "g2")

  const Expenses: seq<Expense> := [Groceries, Gas, Dinner, ServerHosting, Pizza]
}
