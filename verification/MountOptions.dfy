/** Mount options: each known word sets or clears flag bits, in the order given, and the words that are
    not known become the data string of the mount call. */
module MountOptions {
  import opened Wrappers
  import opened Paths
  import Overlay

  datatype Flag =
    | RDONLY | NOSUID | NODEV | NOEXEC | SYNCHRONOUS | DIRSYNC | REMOUNT | MANDLOCK | NOATIME | NODIRATIME
    | RELATIME | STRICTATIME | BIND | REC | UNBINDABLE | PRIVATE | SHARED | SLAVE

  datatype Effect = Nothing | Sets(flags: set<Flag>) | Clears(flag: Flag) | Data

  /** The table of known words. */
  function EffectOf(option: string): Effect {
    match option
    case "defaults" => Nothing
    case "ro" => Sets({RDONLY})
    case "rw" => Clears(RDONLY)
    case "suid" => Clears(NOSUID)
    case "nosuid" => Sets({NOSUID})
    case "dev" => Clears(NODEV)
    case "nodev" => Sets({NODEV})
    case "exec" => Clears(NOEXEC)
    case "noexec" => Sets({NOEXEC})
    case "sync" => Sets({SYNCHRONOUS})
    case "async" => Clears(SYNCHRONOUS)
    case "dirsync" => Sets({DIRSYNC})
    case "remount" => Sets({REMOUNT})
    case "mand" => Sets({MANDLOCK})
    case "nomand" => Clears(MANDLOCK)
    case "atime" => Clears(NOATIME)
    case "noatime" => Sets({NOATIME})
    case "diratime" => Clears(NODIRATIME)
    case "nodiratime" => Sets({NODIRATIME})
    case "relatime" => Sets({RELATIME})
    case "norelatime" => Clears(RELATIME)
    case "strictatime" => Sets({STRICTATIME})
    case "nostrictatime" => Clears(STRICTATIME)
    case "bind" => Sets({BIND})
    case "rbind" => Sets({BIND, REC})
    case "unbindable" => Sets({UNBINDABLE})
    case "runbindable" => Sets({UNBINDABLE, REC})
    case "private" => Sets({PRIVATE})
    case "rprivate" => Sets({PRIVATE, REC})
    case "shared" => Sets({SHARED})
    case "rshared" => Sets({SHARED, REC})
    case "slave" => Sets({SLAVE})
    case "rslave" => Sets({SLAVE, REC})
    case _ => Data
  }

  // ---- The same table, flag by flag ----------------------------------------------------------------------

  /** The words of mount(8) that turn a flag on. */
  function OnWords(flag: Flag): set<string> {
    match flag
    case RDONLY => {"ro"} case NOSUID => {"nosuid"} case NODEV => {"nodev"} case NOEXEC => {"noexec"}
    case SYNCHRONOUS => {"sync"} case DIRSYNC => {"dirsync"} case REMOUNT => {"remount"}
    case MANDLOCK => {"mand"} case NOATIME => {"noatime"} case NODIRATIME => {"nodiratime"}
    case RELATIME => {"relatime"} case STRICTATIME => {"strictatime"}
    case BIND => {"bind", "rbind"} case UNBINDABLE => {"unbindable", "runbindable"}
    case PRIVATE => {"private", "rprivate"} case SHARED => {"shared", "rshared"} case SLAVE => {"slave", "rslave"}
    case REC => {"rbind", "runbindable", "rprivate", "rshared", "rslave"}
  }

  /** And those that turn it off. */
  function OffWords(flag: Flag): set<string> {
    match flag
    case RDONLY => {"rw"} case NOSUID => {"suid"} case NODEV => {"dev"} case NOEXEC => {"exec"}
    case SYNCHRONOUS => {"async"} case MANDLOCK => {"nomand"} case NOATIME => {"atime"}
    case NODIRATIME => {"diratime"} case RELATIME => {"norelatime"} case STRICTATIME => {"nostrictatime"}
    case _ => {}
  }

  /** The two tables agree on every word and flag. */
  lemma OnWordsExactly(o: string, flag: Flag)
    ensures Says(EffectOf(o), flag) == Some(true) <==> o in OnWords(flag)
  {
    if flag == REC { RecWordsExactly(o); }
  }

  lemma RecWordsExactly(o: string)
    ensures Says(EffectOf(o), REC) == Some(true) <==> o in OnWords(REC)
  {
  }

  lemma OffWordsExactly(o: string, flag: Flag)
    ensures Says(EffectOf(o), flag) == Some(false) <==> o in OffWords(flag)
  {
  }

  predicate Unknown(o: string) {
    o != "defaults" && forall flag: Flag :: o !in OnWords(flag) && o !in OffWords(flag)
  }

  lemma SomeFlag(o: string) returns (flag: Flag)
    requires EffectOf(o).Sets? || EffectOf(o).Clears?
    ensures Says(EffectOf(o), flag).Some?
  {
    match EffectOf(o) {
      case Sets(flags) => flag :| flag in flags;
      case Clears(f) => flag := f;
    }
  }

  /** A word goes to the data string exactly if neither table knows it. */
  lemma DataExactly(o: string)
    ensures EffectOf(o).Data? <==> Unknown(o)
  {
    if EffectOf(o).Data? {
      forall flag: Flag ensures o !in OnWords(flag) && o !in OffWords(flag) {
        OnWordsExactly(o, flag);
        OffWordsExactly(o, flag);
      }
    } else if !EffectOf(o).Nothing? {
      var flag := SomeFlag(o);
      OnWordsExactly(o, flag);
      OffWordsExactly(o, flag);
    }
  }

  // ---- What a list of options means --------------------------------------------------------------------

  /** What one word says about a flag, if anything. */
  function Says(e: Effect, flag: Flag): Option<bool> {
    match e
    case Sets(flags) => if flag in flags then Some(true) else None
    case Clears(f) => if f == flag then Some(false) else None
    case _ => None
  }

  /** The last word on a flag. */
  function LastWord(options: seq<string>, flag: Flag): Option<bool> {
    if options == [] then None
    else if Says(EffectOf(options[|options| - 1]), flag).Some? then Says(EffectOf(options[|options| - 1]), flag)
    else LastWord(options[..|options| - 1], flag)
  }

  /** The flags that the last word sets. */
  ghost function FlagsOf(options: seq<string>): set<Flag> {
    set flag: Flag | LastWord(options, flag) == Some(true)
  }

  predicate IsData(option: string) {
    EffectOf(option).Data?
  }

  function Kept(options: seq<string>, keep: string -> bool): seq<string> {
    if options == [] then []
    else
      var last := options[|options| - 1];
      Kept(options[..|options| - 1], keep) + (if keep(last) then [last] else [])
  }

  function DataWords(options: seq<string>): seq<string> {
    Kept(options, IsData)
  }

  /** Some word is in `on` and no later one in `off`. */
  predicate OnThenNotOff(options: seq<string>, on: set<string>, off: set<string>) {
    exists i :: 0 <= i < |options| && options[i] in on && forall j | i < j < |options| :: options[j] !in off
  }

  lemma OnThenNotOffOneMore(front: seq<string>, last: string, on: set<string>, off: set<string>)
    ensures OnThenNotOff(front + [last], on, off) <==> last in on || (OnThenNotOff(front, on, off) && last !in off)
  {
    var options := front + [last];
    assert options[|front|] == last && forall j | 0 <= j < |front| :: options[j] == front[j];
    if last !in on && last !in off && OnThenNotOff(front, on, off) {
      var i :| 0 <= i < |front| && front[i] in on && forall j | i < j < |front| :: front[j] !in off;
      assert options[i] in on;
    }
  }

  /** A flag is set exactly if some word turns it on and no later one turns it off. */
  lemma {:induction false} FlagIsSetExactly(options: seq<string>, flag: Flag)
    ensures flag in FlagsOf(options) <==> OnThenNotOff(options, OnWords(flag), OffWords(flag))
  {
    if options != [] {
      var front, last := options[..|options| - 1], options[|options| - 1];
      FlagIsSetExactly(front, flag);
      OnWordsExactly(last, flag);
      OffWordsExactly(last, flag);
      assert options == front + [last];
      OnThenNotOffOneMore(front, last, OnWords(flag), OffWords(flag));
    }
  }

  /** `words` are the options at the positions `at`, which ascend below `n`. */
  predicate Picks(words: seq<string>, options: seq<string>, at: seq<nat>, n: nat) {
    && |words| == |at|
    && (forall j, k | 0 <= j < k < |at| :: at[j] < at[k])
    && (forall j | 0 <= j < |at| :: at[j] < n <= |options| && words[j] == options[at[j]])
  }

  lemma PicksOneMore(words: seq<string>, options: seq<string>, at: seq<nat>, n: nat)
    requires n < |options| && Picks(words, options[..n], at, n)
    ensures Picks(words, options, at, n + 1)
    ensures Picks(words + [options[n]], options, at + [n], n + 1)
    ensures n !in at
  {
  }

  lemma {:induction false} KeptExactly(options: seq<string>, keep: string -> bool) returns (at: seq<nat>)
    ensures Picks(Kept(options, keep), options, at, |options|)
    ensures forall i | 0 <= i < |options| :: keep(options[i]) <==> i in at
  {
    if options == [] {
      at := [];
    } else {
      var n, front := |options| - 1, options[..|options| - 1];
      var before := KeptExactly(front, keep);
      PicksOneMore(Kept(front, keep), options, before, n);
      at := if keep(options[n]) then before + [n] else before;
      forall i | 0 <= i < |options| ensures keep(options[i]) <==> i in at {
        InOneMore(before, n, i);
        if i < n { assert front[i] == options[i]; }
      }
    }
  }

  lemma InOneMore(at: seq<nat>, n: nat, i: nat)
    ensures i in at + [n] <==> i in at || i == n
  {
  }

  /** The data words are the unknown words and no others, in order; `at` are their positions. */
  lemma DataWordsExactly(options: seq<string>) returns (at: seq<nat>)
    ensures Picks(DataWords(options), options, at, |options|)
    ensures forall i | 0 <= i < |options| :: Unknown(options[i]) <==> i in at
  {
    at := KeptExactly(options, IsData);
    forall i | 0 <= i < |options| ensures Unknown(options[i]) <==> i in at {
      DataExactly(options[i]);
    }
  }

  /** One list after another: the later list has the last word wherever it says anything. */
  lemma {:induction false} LastWordOfConcat(a: seq<string>, b: seq<string>, flag: Flag)
    ensures LastWord(a + b, flag) == if LastWord(b, flag).Some? then LastWord(b, flag) else LastWord(a, flag)
  {
    if b == [] {
      assert a + b == a;
    } else {
      assert (a + b)[..|a + b| - 1] == a + b[..|b| - 1];
      LastWordOfConcat(a, b[..|b| - 1], flag);
    }
  }

  /** The flags of a list with another behind it are those of the first, without what the second clears
      and with what the second sets. */
  lemma FlagsOfConcat(a: seq<string>, b: seq<string>)
    ensures FlagsOf(a + b)
            == FlagsOf(a) - (set flag: Flag | LastWord(b, flag) == Some(false)) + FlagsOf(b)
  {
    forall flag: Flag ensures LastWord(a + b, flag) == Some(true) <==>
                              LastWord(b, flag) == Some(true)
                              || (LastWord(a, flag) == Some(true) && LastWord(b, flag) != Some(false))
    {
      LastWordOfConcat(a, b, flag);
      match LastWord(b, flag) {
        case None =>
        case Some(on) => assert on == true || on == false;
      }
    }
  }

  /** Recursion is one-way: no word clears it, so one word that sets it decides. */
  lemma {:induction false} RecIsNeverCleared(options: seq<string>)
    ensures LastWord(options, REC) != Some(false)
    ensures REC in FlagsOf(options) <==>
            exists o :: o in options && Says(EffectOf(o), REC) == Some(true)
  {
    if options != [] {
      var last, front := options[|options| - 1], options[..|options| - 1];
      RecIsNeverCleared(front);
      NoWordClearsRec(last);
      assert options == front + [last];
      if LastWord(options, REC) == Some(true) && Says(EffectOf(last), REC) != Some(true) {
        assert REC in FlagsOf(front);
      }
      if o :| o in options && Says(EffectOf(o), REC) == Some(true) {
        assert o == last || o in front;
      }
    }
  }

  lemma NoWordClearsRec(option: string)
    ensures Says(EffectOf(option), REC) != Some(false)
  {
  }

  /** The data string splits back into the unknown words, if there are any and none has a comma. */
  lemma DataComesBack(options: seq<string>)
    requires DataWords(options) != [] && forall o | o in DataWords(options) :: ',' !in o
    ensures Overlay.SplitCommas(Overlay.JoinComma(DataWords(options))) == DataWords(options)
  {
    Overlay.SplitOfJoinComma(DataWords(options));
  }

  // ---- The runtime --------------------------------------------------------------------------------------

  method ParseOptions(options: seq<string>) returns (flags: set<Flag>, data: string)
    ensures flags == FlagsOf(options)
    ensures data == Overlay.JoinComma(DataWords(options))
  {
    flags := {};
    var words: seq<string> := [];
    for i := 0 to |options|
      invariant flags == FlagsOf(options[..i])
      invariant words == DataWords(options[..i])
    {
      OneMoreOption(options, i);
      match EffectOf(options[i]) {
        case Nothing =>
        case Sets(bits) => flags := flags + bits;
        case Clears(bit) => flags := flags - {bit};
        case Data => words := words + [options[i]];
      }
    }
    assert options[..|options|] == options;
    data := Overlay.JoinComma(words);
  }

  lemma OneMoreOption(options: seq<string>, i: nat)
    requires i < |options|
    ensures FlagsOf(options[..i + 1]) ==
            match EffectOf(options[i])
            case Sets(bits) => FlagsOf(options[..i]) + bits
            case Clears(bit) => FlagsOf(options[..i]) - {bit}
            case _ => FlagsOf(options[..i])
    ensures DataWords(options[..i + 1])
            == DataWords(options[..i]) + (if EffectOf(options[i]).Data? then [options[i]] else [])
  {
    assert options[..i + 1][..i] == options[..i];
    forall flag: Flag ensures LastWord(options[..i + 1], flag)
                              == if Says(EffectOf(options[i]), flag).Some? then Says(EffectOf(options[i]), flag)
                                 else LastWord(options[..i], flag)
    {
    }
  }

  // ---- Where a mount goes ---------------------------------------------------------------------------------

  function Enter(names: seq<string>, component: Component): seq<string> {
    match component
    case Normal(name) => names + [name]
    case ParentDir => if names == [] then [] else names[..|names| - 1]
    case _ => names
  }

  function EnterAll(names: seq<string>, components: seq<Component>): seq<string>
    decreases |components|
  {
    if components == [] then names else EnterAll(Enter(names, components[0]), components[1..])
  }

  /** The names below the root that a destination leads to: ".." goes up, but never above the root. */
  function Below(destination: seq<Component>): seq<string> {
    EnterAll([], destination)
  }

  lemma {:induction false} EnterAllOfConcat(names: seq<string>, a: seq<Component>, c: seq<Component>)
    ensures EnterAll(names, a + c) == EnterAll(EnterAll(names, a), c)
    decreases |a|
  {
    if a == [] {
      assert a + c == c;
    } else {
      assert (a + c)[1..] == a[1..] + c;
      EnterAllOfConcat(Enter(names, a[0]), a[1..], c);
    }
  }

  lemma BelowOfConcat(a: seq<Component>, b: seq<Component>, c: seq<Component>)
    requires Below(a) == Below(b)
    ensures Below(a + c) == Below(b + c)
  {
    EnterAllOfConcat([], a, c);
    EnterAllOfConcat([], b, c);
  }

  lemma BelowStep(a: seq<Component>, c: Component)
    ensures Below(a + [c]) == Enter(Below(a), c)
  {
    EnterAllOfConcat([], a, [c]);
    assert [c][1..] == [];
  }

  lemma {:induction false} NamesStay(names: seq<string>)
    ensures Below(Named(names)) == names
  {
    if names != [] {
      var front := names[..|names| - 1];
      assert Named(names) == Named(front) + [Normal(names[|names| - 1])];
      NamesStay(front);
      BelowStep(Named(front), Normal(names[|names| - 1]));
    }
  }

  lemma ParentCancels(a: seq<Component>, name: string)
    ensures Below(a + [Normal(name), ParentDir]) == Below(a)
  {
    var named := a + [Normal(name)];
    assert a + [Normal(name), ParentDir] == named + [ParentDir];
    BelowStep(a, Normal(name));
    BelowStep(named, ParentDir);
  }

  lemma OtherIsIgnored(a: seq<Component>, other: Component)
    requires !other.Normal? && (other.ParentDir? ==> Below(a) == [])
    ensures Below(a + [other]) == Below(a)
  {
    BelowStep(a, other);
  }

  /** What a destination comes to, as rules that rewrite it anywhere: a name followed by ".." cancels, ".." at
      the root and everything that is neither a name nor ".." can be left out, and names alone stay as they
      are. */
  lemma DestinationRules(a: seq<Component>, name: string, other: Component, b: seq<Component>, names: seq<string>)
    ensures Below(a + [Normal(name), ParentDir] + b) == Below(a + b)
    ensures Below([ParentDir] + b) == Below(b)
    ensures !other.Normal? && !other.ParentDir? ==> Below(a + [other] + b) == Below(a + b)
    ensures Below(Named(names)) == names
  {
    ParentCancels(a, name);
    BelowOfConcat(a + [Normal(name), ParentDir], a, b);
    OtherIsIgnored([], ParentDir);
    assert [] + [ParentDir] == [ParentDir] && [] + b == b;
    BelowOfConcat([ParentDir], [], b);
    if !other.Normal? && !other.ParentDir? {
      OtherIsIgnored(a, other);
      BelowOfConcat(a + [other], a, b);
    }
    NamesStay(names);
  }

  function Named(names: seq<string>): seq<Component> {
    seq(|names|, i requires 0 <= i < |names| => Normal(names[i]))
  }

  /** The destination inside `rootfs`, with no name above it. */
  method Resolve(rootfs: seq<Component>, destination: seq<Component>) returns (out: seq<Component>)
    ensures out == rootfs + Named(Below(destination))
  {
    out := rootfs;
    for i := 0 to |destination|
      invariant out == rootfs + Named(Below(destination[..i]))
    {
      assert destination[..i + 1] == destination[..i] + [destination[i]];
      BelowStep(destination[..i], destination[i]);
      match destination[i] {
        case Normal(name) => out := out + [Normal(name)];
        case ParentDir =>
          if out != rootfs {
            out := out[..|out| - 1];
          }
        case _ =>
      }
    }
    assert destination[..|destination|] == destination;
  }
}
