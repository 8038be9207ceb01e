/** The status vocabulary shared by the resolver and the connection handlers
    (src/types.rs). */
module Types {
  import opened Wrappers

  /** The state of the managed Minecraft server. Equality is constructor
      identity, as for the derived `PartialEq` of a fieldless enum. */
  datatype ServerStatus = Offline | StartingEC2 | StartingUp | Online | ShuttingDown | Unknown

  /** Every variant, in declaration order: the label table. */
  const AllStatuses: seq<ServerStatus> := [Offline, StartingEC2, StartingUp, Online, ShuttingDown, Unknown]

  /** The variant's label (`as_str`). */
  function AsStr(s: ServerStatus): string
  {
    match s
    case Offline => "Offline"
    case StartingEC2 => "StartingEC2"
    case StartingUp => "StartingUp"
    case Online => "Online"
    case ShuttingDown => "ShuttingDown"
    case Unknown => "Unknown"
  }

  /** The message of the day advertised in a status response (`get_motd`). */
  function GetMotd(s: ServerStatus): string
  {
    match s
    case Offline => "&4Offline &f&o(join to start server up)"
    case StartingEC2 => "&6Starting EC2 instance..."
    case StartingUp => "&6Starting minecraft server..."
    case Online => "&2Online"
    case ShuttingDown => "&cShutting down..."
    case Unknown => "Unknown"
  }

  const DisplayPrefix: string := "ServerStatus::"

  /** The `Display` rendering: the fixed prefix followed by the label. */
  function Fmt(s: ServerStatus): (text: string)
    ensures |text| == |DisplayPrefix| + |AsStr(s)|
    ensures text[..|DisplayPrefix|] == DisplayPrefix
    ensures text[|DisplayPrefix|..] == AsStr(s)
  {
    DisplayPrefix + AsStr(s)
  }

  /** Searches a table of statuses for the one whose label is `name`. */
  function Find(table: seq<ServerStatus>, name: string): (r: Option<ServerStatus>)
    ensures r.Some? ==> r.value in table && AsStr(r.value) == name
    ensures r.None? ==> forall s :: s in table ==> AsStr(s) != name
  {
    if table == [] then None
    else if AsStr(table[0]) == name then Some(table[0])
    else Find(table[1..], name)
  }

  /** Looks a label up in the label table. */
  function FromLabel(name: string): (r: Option<ServerStatus>)
    ensures r.Some? ==> AsStr(r.value) == name
    ensures r.None? ==> forall s: ServerStatus :: AsStr(s) != name
  {
    AllStatusesComplete();
    Find(AllStatuses, name)
  }

  /** The label table lists every variant, so the label and MOTD tables are total. */
  lemma AllStatusesComplete()
    ensures forall s: ServerStatus :: s in AllStatuses
    ensures |AllStatuses| == 6
  {
    forall s: ServerStatus ensures s in AllStatuses {
      var i := match s
        case Offline => 0
        case StartingEC2 => 1
        case StartingUp => 2
        case Online => 3
        case ShuttingDown => 4
        case Unknown => 5;
      assert AllStatuses[i] == s;
    }
  }

  /** Six variants, six distinct labels. */
  lemma AsStrInjective(a: ServerStatus, b: ServerStatus)
    ensures AsStr(a) == AsStr(b) <==> a == b
  {
  }

  /** Six variants, six distinct MOTDs. */
  lemma GetMotdInjective(a: ServerStatus, b: ServerStatus)
    ensures GetMotd(a) == GetMotd(b) <==> a == b
  {
  }

  /** The `Display` texts are distinct too: the label can be read back from them. */
  lemma FmtInjective(a: ServerStatus, b: ServerStatus)
    ensures Fmt(a) == Fmt(b) <==> a == b
  {
  }

  /** Looking a variant's label up in the label table gives the variant back,
      and a label found there is that of exactly one variant. */
  lemma LabelRoundTrip(s: ServerStatus, name: string)
    ensures FromLabel(AsStr(s)) == Some(s)
    ensures FromLabel(name) == Some(s) <==> AsStr(s) == name
  {
  }
}
