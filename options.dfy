/** The command line of the indexer: the option loop of `main` over the
    (option, argument) pairs `getopt` returns, and the usage check. */
module Options {
  import opened Values
  import opened Numerals

  /** One pair returned by `getopt`: the option as typed and its argument
      (empty for flags). */
  datatype Opt = Opt(name: string, argument: string)

  /** The local variables the option loop sets. `url` stands for the
      Elasticsearch client built from `--url` (None when there is none). */
  datatype Config = Config(
    server: Option<string>,
    port: int,
    username: Option<string>,
    password: Option<string>,
    all: bool,
    debug: bool,
    url: Option<string>,
    index: string,
    screenIds: seq<int>,
    projectIds: seq<int>)

  /** The values `main` starts from. */
  const Defaults: Config := Config(None, 4064, None, None, false, false, None, "omero", [], [])

  /** Options whose argument goes through `int()` / `long()`. */
  predicate Numeric(name: string)
  {
    name == "-p" || name == "--screen" || name == "--project"
  }

  /** A pair whose numeric argument `int()` / `long()` rejects. */
  predicate Bad(o: Opt)
  {
    Numeric(o.name) && ParseInt(o.argument).None?
  }

  /** One iteration of the option loop; Err carries the argument whose
      conversion raised ValueError. Unknown options change nothing. */
  function ApplyOption(c: Config, o: Opt): (r: Result<Config, string>)
    ensures r.Err? <==> Bad(o)
  {
    if o.name == "-s" then Ok(c.(server := Some(o.argument)))
    else if o.name == "-p" then
      (match ParseInt(o.argument)
       case Some(n) => Ok(c.(port := n))
       case None => Err(o.argument))
    else if o.name == "-u" then Ok(c.(username := Some(o.argument)))
    else if o.name == "-w" then Ok(c.(password := Some(o.argument)))
    else if o.name == "-a" then Ok(c.(all := true))
    else if o.name == "--debug" then Ok(c.(debug := true))
    else if o.name == "--url" then Ok(c.(url := Some(o.argument)))
    else if o.name == "--index" then Ok(c.(index := o.argument))
    else if o.name == "--screen" then
      (match ParseInt(o.argument)
       case Some(n) => Ok(c.(screenIds := c.screenIds + [n]))
       case None => Err(o.argument))
    else if o.name == "--project" then
      (match ParseInt(o.argument)
       case Some(n) => Ok(c.(projectIds := c.projectIds + [n]))
       case None => Err(o.argument))
    else Ok(c)
  }

  /** The option loop from the defaults; the first ValueError ends it. */
  function ApplyOptions(opts: seq<Opt>): Result<Config, string>
  {
    if opts == [] then Ok(Defaults)
    else
      match ApplyOptions(opts[..|opts| - 1])
      case Err(a) => Err(a)
      case Ok(c) => ApplyOption(c, opts[|opts| - 1])
  }

  /** The argument of the last occurrence of option `name`. */
  function LastArgument(opts: seq<Opt>, name: string): Option<string>
  {
    if opts == [] then None
    else if opts[|opts| - 1].name == name then Some(opts[|opts| - 1].argument)
    else LastArgument(opts[..|opts| - 1], name)
  }

  /** The arguments of every occurrence of option `name`, in order. */
  function Arguments(opts: seq<Opt>, name: string): seq<string>
  {
    if opts == [] then []
    else Arguments(opts[..|opts| - 1], name) + (if opts[|opts| - 1].name == name then [opts[|opts| - 1].argument] else [])
  }

  /** The numbers a list of numerals parses to, when they all parse. */
  predicate ParsesTo(args: seq<string>, ids: seq<int>)
  {
    |args| == |ids| && forall k :: 0 <= k < |args| ==> ParseInt(args[k]) == Some(ids[k])
  }

  lemma ParsesToSnoc(args: seq<string>, ids: seq<int>, a: string, n: int)
    requires ParsesTo(args, ids) && ParseInt(a) == Some(n)
    ensures ParsesTo(args + [a], ids + [n])
  {
  }

  /** What a completed option loop has set. */
  ghost predicate Reflects(c: Config, opts: seq<Opt>)
  {
    ScalarsReflect(c, opts) && FlagsReflect(c, opts) && IdsReflect(c, opts)
  }

  /** For a single-valued option the last occurrence wins; the default stays
      when there is none. */
  ghost predicate ScalarsReflect(c: Config, opts: seq<Opt>)
  {
    && c.server == LastArgument(opts, "-s")
    && c.username == LastArgument(opts, "-u")
    && c.password == LastArgument(opts, "-w")
    && c.url == LastArgument(opts, "--url")
    && c.index == (match LastArgument(opts, "--index") case Some(a) => a case None => "omero")
    && (match LastArgument(opts, "-p") case Some(a) => Some(c.port) == ParseInt(a) case None => c.port == 4064)
  }

  /** `-a` and `--debug` are on when they occur at all. */
  ghost predicate FlagsReflect(c: Config, opts: seq<Opt>)
  {
    && c.all == (exists k :: 0 <= k < |opts| && opts[k].name == "-a")
    && c.debug == (exists k :: 0 <= k < |opts| && opts[k].name == "--debug")
  }

  /** The screen and project ids are every `--screen` and `--project`
      argument, in order. */
  ghost predicate IdsReflect(c: Config, opts: seq<Opt>)
  {
    && ParsesTo(Arguments(opts, "--screen"), c.screenIds)
    && ParsesTo(Arguments(opts, "--project"), c.projectIds)
  }

  /** The setting a single-valued string option writes. */
  function Setting(c: Config, name: string): Option<string>
  {
    if name == "-s" then c.server
    else if name == "-u" then c.username
    else if name == "-w" then c.password
    else if name == "--url" then c.url
    else None
  }

  predicate SettingName(name: string)
  {
    name == "-s" || name == "-u" || name == "-w" || name == "--url"
  }

  lemma {:induction false} ApplyOptionsSetting(opts: seq<Opt>, name: string)
    requires ApplyOptions(opts).Ok? && SettingName(name)
    ensures Setting(ApplyOptions(opts).value, name) == LastArgument(opts, name)
  {
    if opts != [] {
      ApplyOptionsSetting(opts[..|opts| - 1], name);
    }
  }

  lemma {:induction false} ApplyOptionsIndex(opts: seq<Opt>)
    requires ApplyOptions(opts).Ok?
    ensures ApplyOptions(opts).value.index == (match LastArgument(opts, "--index") case Some(a) => a case None => "omero")
  {
    if opts != [] {
      ApplyOptionsIndex(opts[..|opts| - 1]);
    }
  }

  lemma {:induction false} ApplyOptionsPort(opts: seq<Opt>)
    requires ApplyOptions(opts).Ok?
    ensures match LastArgument(opts, "-p")
      case Some(a) => Some(ApplyOptions(opts).value.port) == ParseInt(a)
      case None => ApplyOptions(opts).value.port == 4064
  {
    if opts != [] {
      ApplyOptionsPort(opts[..|opts| - 1]);
    }
  }

  lemma ApplyOptionsScalars(opts: seq<Opt>)
    requires ApplyOptions(opts).Ok?
    ensures ScalarsReflect(ApplyOptions(opts).value, opts)
  {
    ApplyOptionsSetting(opts, "-s");
    ApplyOptionsSetting(opts, "-u");
    ApplyOptionsSetting(opts, "-w");
    ApplyOptionsSetting(opts, "--url");
    ApplyOptionsIndex(opts);
    ApplyOptionsPort(opts);
  }

  /** The flag an option without argument switches on. */
  function Flag(c: Config, name: string): bool
  {
    if name == "-a" then c.all else if name == "--debug" then c.debug else false
  }

  lemma {:induction false} ApplyOptionsFlag(opts: seq<Opt>, name: string)
    requires ApplyOptions(opts).Ok? && (name == "-a" || name == "--debug")
    ensures Flag(ApplyOptions(opts).value, name) == (exists k :: 0 <= k < |opts| && opts[k].name == name)
  {
    if opts != [] {
      var init := opts[..|opts| - 1];
      ApplyOptionsFlag(init, name);
      assert forall k :: 0 <= k < |init| ==> init[k] == opts[k];
      assert (exists k :: 0 <= k < |opts| && opts[k].name == name)
          == ((exists k :: 0 <= k < |init| && init[k].name == name) || opts[|opts| - 1].name == name);
    }
  }

  lemma ApplyOptionsFlags(opts: seq<Opt>)
    requires ApplyOptions(opts).Ok?
    ensures FlagsReflect(ApplyOptions(opts).value, opts)
  {
    ApplyOptionsFlag(opts, "-a");
    ApplyOptionsFlag(opts, "--debug");
  }

  /** The id list an option appends to. */
  function IdList(c: Config, name: string): seq<int>
  {
    if name == "--screen" then c.screenIds else if name == "--project" then c.projectIds else []
  }

  /** One option appends to an id list only when it names that list. */
  lemma ApplyOptionIdList(c: Config, o: Opt, name: string)
    requires ApplyOption(c, o).Ok? && (name == "--screen" || name == "--project")
    ensures o.name == name ==>
      (ParseInt(o.argument).Some? && IdList(ApplyOption(c, o).value, name) == IdList(c, name) + [ParseInt(o.argument).value])
    ensures o.name != name ==> IdList(ApplyOption(c, o).value, name) == IdList(c, name)
  {
  }

  lemma {:induction false} ApplyOptionsIdList(opts: seq<Opt>, name: string)
    requires ApplyOptions(opts).Ok? && (name == "--screen" || name == "--project")
    ensures ParsesTo(Arguments(opts, name), IdList(ApplyOptions(opts).value, name))
  {
    if opts != [] {
      var init := opts[..|opts| - 1];
      var o := opts[|opts| - 1];
      ApplyOptionsIdList(init, name);
      var c := ApplyOptions(init).value;
      ApplyOptionIdList(c, o, name);
      if o.name == name {
        ParsesToSnoc(Arguments(init, name), IdList(c, name), o.argument, ParseInt(o.argument).value);
      }
    }
  }

  lemma ApplyOptionsIds(opts: seq<Opt>)
    requires ApplyOptions(opts).Ok?
    ensures IdsReflect(ApplyOptions(opts).value, opts)
  {
    ApplyOptionsIdList(opts, "--screen");
    ApplyOptionsIdList(opts, "--project");
  }

  /** What a completed option loop has set. */
  lemma ApplyOptionsReflects(opts: seq<Opt>)
    requires ApplyOptions(opts).Ok?
    ensures Reflects(ApplyOptions(opts).value, opts)
  {
    ApplyOptionsScalars(opts);
    ApplyOptionsFlags(opts);
    ApplyOptionsIds(opts);
  }

  /** The option loop raises exactly when some numeric option has an
      argument `int()` rejects, and then on the first such argument. */
  lemma {:induction false} ApplyOptionsFails(opts: seq<Opt>)
    ensures ApplyOptions(opts).Err? <==> exists k :: 0 <= k < |opts| && Bad(opts[k])
    ensures ApplyOptions(opts).Err? ==>
      exists k :: 0 <= k < |opts| && Bad(opts[k]) && opts[k].argument == ApplyOptions(opts).error
        && forall j :: 0 <= j < k ==> !Bad(opts[j])
  {
    if opts != [] {
      var init := opts[..|opts| - 1];
      ApplyOptionsFails(init);
      assert forall k :: 0 <= k < |init| ==> init[k] == opts[k];
      if ApplyOptions(init).Ok? && Bad(opts[|opts| - 1]) {
        assert forall j :: 0 <= j < |opts| - 1 ==> !Bad(opts[j]);
      }
    }
  }

  /** The option loop of `main`. */
  method ParseOptions(opts: seq<Opt>) returns (r: Result<Config, string>)
    ensures r == ApplyOptions(opts)
  {
    var c := Defaults;
    for i := 0 to |opts|
      invariant ApplyOptions(opts[..i]) == Ok(c)
    {
      assert opts[..i + 1][..i] == opts[..i];
      var o := opts[i];
      if o.name == "-s" {
        c := c.(server := Some(o.argument));
      }
      if o.name == "-p" {
        var n := ParseInt(o.argument);
        if n.None? {
          PrefixErr(opts, i + 1, o.argument);
          return Err(o.argument);
        }
        c := c.(port := n.value);
      }
      if o.name == "-u" {
        c := c.(username := Some(o.argument));
      }
      if o.name == "-w" {
        c := c.(password := Some(o.argument));
      }
      if o.name == "-a" {
        c := c.(all := true);
      }
      if o.name == "--debug" {
        c := c.(debug := true);
      }
      if o.name == "--url" {
        c := c.(url := Some(o.argument));
      }
      if o.name == "--index" {
        c := c.(index := o.argument);
      }
      if o.name == "--screen" {
        var n := ParseInt(o.argument);
        if n.None? {
          PrefixErr(opts, i + 1, o.argument);
          return Err(o.argument);
        }
        c := c.(screenIds := c.screenIds + [n.value]);
      }
      if o.name == "--project" {
        var n := ParseInt(o.argument);
        if n.None? {
          PrefixErr(opts, i + 1, o.argument);
          return Err(o.argument);
        }
        c := c.(projectIds := c.projectIds + [n.value]);
      }
    }
    assert opts[..|opts|] == opts;
    return Ok(c);
  }

  /** Once the loop has raised, the rest of the options do not matter. */
  lemma {:induction false} PrefixErr(opts: seq<Opt>, n: nat, a: string)
    requires n <= |opts| && ApplyOptions(opts[..n]) == Err(a)
    ensures ApplyOptions(opts) == Err(a)
    decreases |opts| - n
  {
    if n < |opts| {
      assert opts[..n + 1][..n] == opts[..n];
      PrefixErr(opts, n + 1, a);
    } else {
      assert opts[..n] == opts;
    }
  }

  /** The usage check after the loop: neither `-a` nor any project or
      screen id. */
  predicate NeedsUsage(c: Config)
  {
    !c.all && |c.screenIds| < 1 && |c.projectIds| < 1
  }

  /** Without options, the loop keeps the defaults and the usage check fails. */
  lemma NoOptionsNeedUsage()
    ensures ApplyOptions([]) == Ok(Defaults) && NeedsUsage(Defaults)
  {
  }

  /** A single `--project` or `--screen` with a numeral, or `-a`, passes the
      usage check whatever the other options are. */
  lemma {:induction false} UsageSatisfied(opts: seq<Opt>)
    requires ApplyOptions(opts).Ok?
    requires exists k :: 0 <= k < |opts| && (opts[k].name == "-a" || opts[k].name == "--project" || opts[k].name == "--screen")
    ensures !NeedsUsage(ApplyOptions(opts).value)
  {
    ApplyOptionsReflects(opts);
    var k :| 0 <= k < |opts| && (opts[k].name == "-a" || opts[k].name == "--project" || opts[k].name == "--screen");
    if opts[k].name == "--project" {
      ArgumentsNonEmpty(opts, "--project", k);
    } else if opts[k].name == "--screen" {
      ArgumentsNonEmpty(opts, "--screen", k);
    }
  }

  lemma {:induction false} ArgumentsNonEmpty(opts: seq<Opt>, name: string, k: nat)
    requires k < |opts| && opts[k].name == name
    ensures |Arguments(opts, name)| > 0
  {
    if k < |opts| - 1 {
      assert opts[..|opts| - 1][k] == opts[k];
      ArgumentsNonEmpty(opts[..|opts| - 1], name, k);
    }
  }
}
