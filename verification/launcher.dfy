/**
 * Command lines of the Webkit, WebkitHeadless and Epiphany launchers.
 *
 * A launch passes the browser the test URL, a profile flag naming a fresh temporary
 * directory, and the extra flags from the launcher's configuration. The directory and the
 * platform name are parameters here: they come from the environment, not from this logic.
 */
module Launcher {

  datatype Option<T> = None | Some(value: T)

  /** The `flags` entry of a launcher's configuration: missing, or an ordered list. */
  datatype Flags = Absent | Given(list: seq<string>)

  /** The configuration object a launcher is constructed with, which the headless launcher may not get. */
  datatype Args = NoArgs | WithFlags(flags: Flags)

  /** The two independent command-line builders. */
  datatype Browser = Webkit | Epiphany

  /** A decoded command line: what a launch was asked to do. */
  datatype Launch = Launch(url: string, profileDir: string, flags: seq<string>)

  /** `args.flags || []`: missing flags read as the empty list. */
  function CallerFlags(f: Flags): seq<string> {
    match f
    case Absent => []
    case Given(list) => list
  }

  /** The flags a configuration carries, with a missing configuration reading as no flags. */
  function ArgsFlags(args: Args): seq<string> {
    match args
    case NoArgs => []
    case WithFlags(f) => CallerFlags(f)
  }

  /** The flag that points each browser at its isolated profile directory. */
  function ProfileFlag(b: Browser): string {
    match b
    case Webkit => "--user-data-dir="
    case Epiphany => "--profile="
  }

  /** The argument vector a `start` event hands to the browser executable. */
  function StartArgv(b: Browser, url: string, profileDir: string, flags: Flags): seq<string> {
    [url, ProfileFlag(b) + profileDir] + CallerFlags(flags)
  }

  predicate HasPrefix(s: string, prefix: string) {
    |prefix| <= |s| && s[..|prefix|] == prefix
  }

  /** Reads a command line back: the inverse of `StartArgv` for a given browser. */
  function ParseArgv(b: Browser, argv: seq<string>): Option<Launch> {
    if |argv| >= 2 && HasPrefix(argv[1], ProfileFlag(b)) then
      Some(Launch(argv[0], argv[1][|ProfileFlag(b)|..], argv[2..]))
    else None
  }

  /** Decoding a built command line recovers the URL, the directory and the caller flags. */
  lemma ParseStartArgv(b: Browser, url: string, profileDir: string, flags: Flags)
    ensures ParseArgv(b, StartArgv(b, url, profileDir, flags))
         == Some(Launch(url, profileDir, CallerFlags(flags)))
  {
  }

  /** Every command line the parser accepts is the one built from what it decodes to. */
  lemma StartArgvOfParse(b: Browser, argv: seq<string>)
    ensures ParseArgv(b, argv).Some? ==>
      var l := ParseArgv(b, argv).value;
      StartArgv(b, l.url, l.profileDir, Given(l.flags)) == argv
  {
    if ParseArgv(b, argv).Some? {
      var p := ProfileFlag(b);
      assert p + argv[1][|p|..] == argv[1];
      assert [argv[0], argv[1]] + argv[2..] == argv;
    }
  }

  /**
   * The Webkit command line: the URL first, then `--user-data-dir=` with the directory,
   * then exactly the caller's flags in their original order (none when flags are missing).
   */
  lemma WebkitArgvShape(url: string, profileDir: string, flags: Flags)
    ensures var argv := StartArgv(Webkit, url, profileDir, flags);
      && |argv| == 2 + |CallerFlags(flags)|
      && argv[0] == url
      && argv[1] == "--user-data-dir=" + profileDir
      && argv[2..] == CallerFlags(flags)
      && (flags.Absent? ==> argv == [url, "--user-data-dir=" + profileDir])
  {
  }

  /**
   * The Epiphany command line: the URL first, then `--profile=` with the directory,
   * then exactly the caller's flags in their original order (none when flags are missing).
   */
  lemma EpiphanyArgvShape(url: string, profileDir: string, flags: Flags)
    ensures var argv := StartArgv(Epiphany, url, profileDir, flags);
      && |argv| == 2 + |CallerFlags(flags)|
      && argv[0] == url
      && argv[1] == "--profile=" + profileDir
      && argv[2..] == CallerFlags(flags)
      && (flags.Absent? ==> argv == [url, "--profile=" + profileDir])
  {
  }

  /**
   * Distinct profile directories, URLs or effective flags always give distinct command lines.
   * Effective flags read missing as empty, so missing flags and `[]` give the same one.
   */
  lemma StartArgvInjective(b: Browser, url1: string, dir1: string, f1: Flags,
                           url2: string, dir2: string, f2: Flags)
    requires StartArgv(b, url1, dir1, f1) == StartArgv(b, url2, dir2, f2)
    ensures url1 == url2 && dir1 == dir2 && CallerFlags(f1) == CallerFlags(f2)
  {
    ParseStartArgv(b, url1, dir1, f1);
    ParseStartArgv(b, url2, dir2, f2);
  }

  /* ---------------------------------------------------------------------------
   * The headless launcher
   * ------------------------------------------------------------------------- */

  /** The flags headless mode adds: GPU acceleration is also switched off on macOS and Windows. */
  function HeadlessFlags(platform: string): (hf: seq<string>)
    ensures hf == ["--headless"] || hf == ["--headless", "--disable-gpu"]
    ensures "--disable-gpu" in hf <==> platform == "darwin" || platform == "win32"
  {
    if platform == "darwin" || platform == "win32" then ["--headless", "--disable-gpu"]
    else ["--headless"]
  }

  /**
   * The flags the headless launcher forwards to the Webkit builder: non-empty caller
   * flags with the headless flags appended, or the headless flags alone otherwise.
   */
  function MergeHeadlessFlags(args: Args, platform: string): (merged: seq<string>)
    ensures merged == ArgsFlags(args) + HeadlessFlags(platform)
  {
    if args.WithFlags? && args.flags.Given? && |args.flags.list| > 0 then
      args.flags.list + HeadlessFlags(platform)
    else
      HeadlessFlags(platform)
  }

  /** The command line of the headless launcher: the Webkit one built from the merged flags. */
  function HeadlessArgv(url: string, profileDir: string, args: Args, platform: string): seq<string> {
    StartArgv(Webkit, url, profileDir, Given(MergeHeadlessFlags(args, platform)))
  }

  /**
   * The headless command line is the plain Webkit one for the same configuration with the
   * headless flags appended: caller flags keep their order and the headless flags come last.
   */
  lemma HeadlessExtendsWebkit(url: string, profileDir: string, args: Args, platform: string)
    ensures HeadlessArgv(url, profileDir, args, platform)
         == StartArgv(Webkit, url, profileDir, Given(ArgsFlags(args))) + HeadlessFlags(platform)
  {
  }

  /**
   * Without caller flags (no configuration, missing or empty `flags`) the forwarded flags are
   * exactly the headless list.
   */
  lemma HeadlessWithoutCallerFlags(url: string, profileDir: string, args: Args, platform: string)
    requires ArgsFlags(args) == []
    ensures MergeHeadlessFlags(args, platform) == HeadlessFlags(platform)
    ensures HeadlessArgv(url, profileDir, args, platform)
         == [url, "--user-data-dir=" + profileDir] + HeadlessFlags(platform)
  {
  }

  /**
   * `--headless` is always on the headless command line; `--disable-gpu` is on it exactly
   * when the platform is macOS or Windows or the caller asked for it.
   */
  lemma HeadlessArgvFlags(url: string, profileDir: string, args: Args, platform: string)
    ensures "--headless" in HeadlessArgv(url, profileDir, args, platform)
    ensures "--disable-gpu" in HeadlessArgv(url, profileDir, args, platform)
        <==> (platform == "darwin" || platform == "win32" || "--disable-gpu" in ArgsFlags(args)
              || url == "--disable-gpu")
  {
  }
}
