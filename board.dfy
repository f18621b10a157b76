/** The board snapshot the dashboard reads: cards, lists, members and labels,
    as the data source delivers them. A text field the source may lack
    (`undefined`, `null`) is the empty string here: the code only ever tests
    such fields for truthiness, and `""` is falsy too. */
module Board {

  datatype Option<T> = None | Some(value: T)

  const MsPerDay: int := 86_400_000

  type MonthIndex = m: int | 0 <= m < 12

  /** A `dateLastActivity` timestamp: milliseconds since the epoch, the
      calendar year and month (0-11) that `getFullYear` and `getMonth` report
      for it, and the number of the day its ISO date (`YYYY-MM-DD`) names. */
  datatype Instant = Instant(ms: int, year: int, month: MonthIndex, day: int)

  /** A `due` value: the ISO text as delivered and the instant it denotes. */
  datatype Due = Due(iso: string, ms: int)

  datatype Label = Label(id: string, name: string, color: string)

  datatype Card = Card(
    id: string,
    name: string,
    idList: string,
    labels: seq<Label>,
    idMembers: seq<string>,
    due: Option<Due>,
    dateLastActivity: Option<Instant>,
    closed: bool,
    shortUrl: string)

  datatype BoardList = BoardList(id: string, name: string, closed: bool)

  datatype Member = Member(id: string, fullName: string, username: string, initials: string)

  /** The owner key both aggregations use for a card with no members. */
  const NoOwner: string := "none"

  /** The owners a card is counted under: its members, or `"none"`. */
  function Owners(c: Card): (os: seq<string>)
    ensures |os| >= 1
    ensures |c.idMembers| > 0 ==> os == c.idMembers
    ensures |c.idMembers| == 0 ==> os == [NoOwner]
  {
    if |c.idMembers| > 0 then c.idMembers else [NoOwner]
  }

  /** `byId[k] || fallback` on a name index. */
  function NameOr(byId: map<string, string>, k: string, fallback: string): string
  {
    if k in byId && byId[k] != "" then byId[k] else fallback
  }

  /** `memberNameById[m] || m` for every member id. */
  function MemberNamesOf(memberNames: map<string, string>, ms: seq<string>): (ws: seq<string>)
    ensures |ws| == |ms|
    ensures forall i :: 0 <= i < |ms| ==> ws[i] == NameOr(memberNames, ms[i], ms[i])
  {
    if ms == [] then [] else MemberNamesOf(memberNames, ms[..|ms| - 1]) + [NameOr(memberNames, ms[|ms| - 1], ms[|ms| - 1])]
  }
}
