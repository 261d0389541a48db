/**
 The argument-validation shell: the fixed table of store nicknames and the
 checks made on the command line before any store is created.
 */
module StoreNames {

  /** The four store implementations the table names. */
  datatype StoreKind = FileSystem | ZooKeeper | NullStore | Memory

  /** The nickname table: nickname to store implementation. */
  const StateStoreClasses: map<string, StoreKind> :=
    map["fs" := FileSystem, "zk" := ZooKeeper, "null" := NullStore, "mem" := Memory]

  /** The allowed nicknames, listed on their own as the reference for the table. */
  const AllowedNickNames: set<string> := {"fs", "zk", "null", "mem"}

  /** The nickname under which the table lists a store implementation. */
  function NickName(kind: StoreKind): (nick: string)
    ensures nick in StateStoreClasses && StateStoreClasses[nick] == kind
  {
    match kind
    case FileSystem => "fs"
    case ZooKeeper => "zk"
    case NullStore => "null"
    case Memory => "mem"
  }

  /** Why the shell terminates the process; every rejection exits with status 1. */
  datatype Rejection =
    | Usage
    | InvalidNickName(nick: string)
    | SameStores(nick: string)

  datatype Checked<T> = Accepted(value: T) | Rejected(reason: Rejection)

  /** The two stores a run copies between. */
  datatype Selection = Selection(source: StoreKind, destination: StoreKind)

  /** A nickname is accepted when it is non-empty and listed in the table. */
  function CheckNickName(nick: string): (r: Checked<StoreKind>)
    ensures r.Accepted? <==> nick in AllowedNickNames
    ensures r.Accepted? ==> NickName(r.value) == nick
    ensures r.Rejected? ==> r.reason == InvalidNickName(nick)
  {
    if nick == "" || nick !in StateStoreClasses then Rejected(InvalidNickName(nick))
    else Accepted(StateStoreClasses[nick])
  }

  /**
   The checks of the entry point, in their order: exactly two arguments,
   a valid source nickname, a valid destination nickname, and the two differ.
   */
  function ValidateArgs(args: seq<string>): (r: Checked<Selection>)
    ensures r.Accepted? <==>
      |args| == 2 && args[0] in AllowedNickNames && args[1] in AllowedNickNames && args[0] != args[1]
    ensures r.Accepted? ==>
      && r.value.source != r.value.destination
      && NickName(r.value.source) == args[0]
      && NickName(r.value.destination) == args[1]
    ensures |args| != 2 ==> r == Rejected(Usage)
    ensures |args| == 2 && args[0] !in AllowedNickNames ==> r == Rejected(InvalidNickName(args[0]))
    ensures |args| == 2 && args[0] in AllowedNickNames && args[1] !in AllowedNickNames ==>
      r == Rejected(InvalidNickName(args[1]))
    ensures |args| == 2 && args[0] in AllowedNickNames && args[0] == args[1] ==>
      r == Rejected(SameStores(args[0]))
  {
    if |args| != 2 then Rejected(Usage)
    else
      match CheckNickName(args[0])
      case Rejected(why) => Rejected(why)
      case Accepted(src) =>
        match CheckNickName(args[1])
        case Rejected(why) => Rejected(why)
        case Accepted(dest) =>
          if args[0] == args[1] then Rejected(SameStores(args[0]))
          else Accepted(Selection(src, dest))
  }

  /** Every nickname names exactly one implementation and every implementation has one nickname. */
  lemma NickNameRoundTrip(kind: StoreKind, nick: string)
    ensures CheckNickName(NickName(kind)) == Accepted(kind)
    ensures CheckNickName(nick).Accepted? ==> NickName(CheckNickName(nick).value) == nick
    ensures CheckNickName(nick) == Accepted(kind) <==> nick == NickName(kind)
  {
  }

  /** Equal nicknames and equal implementations coincide, so the shell's string test rejects copying a store onto itself. */
  lemma DistinctNickNamesDistinctStores(a: string, b: string)
    requires CheckNickName(a).Accepted? && CheckNickName(b).Accepted?
    ensures a == b <==> CheckNickName(a).value == CheckNickName(b).value
  {
    NickNameRoundTrip(CheckNickName(a).value, a);
    NickNameRoundTrip(CheckNickName(b).value, b);
  }
}
