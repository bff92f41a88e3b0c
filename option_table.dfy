/**
 * The static option descriptor table of src/main.c (struct cmdline_option and
 * option_data, lines 135-254).  The table is a sequence of descriptors whose index
 * is the identifier getopt_long hands back; it is written as four parts of four
 * groups so that facts about the whole table can be established part by part.
 */
module OptionTable {
  import opened Wrappers

  /** getopt's has_arg values: no_argument, required_argument, optional_argument. */
  datatype ArgReq = NoArgument | RequiredArgument | OptionalArgument

  /** The non-standard option types handled specially in main (main.c:141-149); OPT__NO is LegacyNo. */
  datatype Action = AppendOutput | Clobber | Execute | Help | LegacyNo | Parent | Version

  /**
   * The `type` field of struct cmdline_option (main.c:138-150) together with its
   * `argtype`.  OPT_VALUE and OPT_BOOLEAN carry argtype -1, which init_switches never
   * reads; a special action always carries a real argtype, which init_switches asserts
   * (main.c:334).
   */
  datatype Kind = Value | Boolean | Special(action: Action, argtype: ArgReq)

  /** A short option character: it indexes optmap[c - 32], so it is printable ASCII, and it is not getopt's ':'. */
  type ShortName = c: char | 32 <= c as int < 128 && c != ':' witness 'a'

  /**
   * One option descriptor.  `longName` is None where IF_SSL / IF_DEBUG compiled the
   * name out, `shortName` is None where the source writes 0, and `handleCmd` is None
   * for NULL.
   */
  datatype Descriptor = Descriptor(
    longName: Option<string>,
    shortName: Option<ShortName>,
    kind: Kind,
    handleCmd: Option<string>)

  /** The two configure-time switches the table depends on: HAVE_SSL and ENABLE_DEBUG. */
  datatype Build = Build(ssl: bool, debug: bool)

  /** IF_SSL(x): the name, or NULL when SSL support is not compiled in (main.c:123-127). */
  function IfSsl(b: Build, name: string): Option<string> {
    if b.ssl then Some(name) else None
  }

  /** IF_DEBUG(x): the name, or NULL when debugging support is not compiled in (main.c:129-133). */
  function IfDebug(b: Build, name: string): Option<string> {
    if b.debug then Some(name) else None
  }

  /** A descriptor whose long name was not compiled out; init_switches skips the others. */
  predicate Enabled(d: Descriptor) {
    d.longName.Some?
  }

  /** The special types whose handling in main reads optarg unconditionally (main.c:558-604). */
  predicate ReadsArgument(a: Action) {
    a == AppendOutput || a == Execute || a == LegacyNo
  }

  /** A descriptor whose handling reads optarg declares required_argument, so getopt_long always supplies one. */
  predicate Declared(d: Descriptor) {
    d.kind.Special? && ReadsArgument(d.kind.action) ==> d.kind.argtype == RequiredArgument
  }

  /** The whole option_data array, in source order (main.c:155-254). */
  function OptionData(b: Build): seq<Descriptor> {
    OptionsPart1(b) + OptionsPart2(b) + OptionsPart3(b) + OptionsPart4(b)
  }

  /** main.c:157-180, indices 0-23. */
  function OptionsPart1(b: Build): seq<Descriptor> {
    Group1(b) + Group2(b) + Group3(b) + Group4(b)
  }

  /** main.c:181-204, indices 24-47. */
  function OptionsPart2(b: Build): seq<Descriptor> {
    Group5(b) + Group6(b) + Group7(b) + Group8(b)
  }

  /** main.c:205-228, indices 48-71. */
  function OptionsPart3(b: Build): seq<Descriptor> {
    Group9(b) + Group10(b) + Group11(b) + Group12(b)
  }

  /** main.c:229-253, indices 72-96. */
  function OptionsPart4(b: Build): seq<Descriptor> {
    Group13(b) + Group14(b) + Group15(b) + Group16(b)
  }

  /** main.c:157-162 (indices 0-5). */
  function Group1(b: Build): seq<Descriptor> {
    [ Descriptor(Some("accept"), Some('A'), Value, Some("accept")),
      Descriptor(Some("append-output"), Some('a'), Special(AppendOutput, RequiredArgument), None),
      Descriptor(Some("background"), Some('b'), Boolean, Some("background")),
      Descriptor(Some("backup-converted"), Some('K'), Boolean, Some("backupconverted")),
      Descriptor(Some("backups"), None, Boolean, Some("backups")),
      Descriptor(Some("base"), Some('B'), Value, Some("base")) ]
  }

  /** main.c:163-168 (indices 6-11). */
  function Group2(b: Build): seq<Descriptor> {
    [ Descriptor(Some("bind-address"), None, Value, Some("bindaddress")),
      Descriptor(Some("cache"), Some('C'), Boolean, Some("cache")),
      Descriptor(Some("clobber"), None, Special(Clobber, OptionalArgument), None),
      Descriptor(Some("connect-timeout"), None, Value, Some("connecttimeout")),
      Descriptor(Some("continue"), Some('c'), Boolean, Some("continue")),
      Descriptor(Some("convert-links"), Some('k'), Boolean, Some("convertlinks")) ]
  }

  /** main.c:169-174 (indices 12-17). */
  function Group3(b: Build): seq<Descriptor> {
    [ Descriptor(Some("cookies"), None, Boolean, Some("cookies")),
      Descriptor(Some("cut-dirs"), None, Value, Some("cutdirs")),
      Descriptor(IfDebug(b, "debug"), Some('d'), Boolean, Some("debug")),
      Descriptor(Some("delete-after"), None, Boolean, Some("deleteafter")),
      Descriptor(Some("directories"), None, Boolean, Some("dirstruct")),
      Descriptor(Some("directory-prefix"), Some('P'), Value, Some("dirprefix")) ]
  }

  /** main.c:175-180 (indices 18-23). */
  function Group4(b: Build): seq<Descriptor> {
    [ Descriptor(Some("dns-cache"), None, Boolean, Some("dnscache")),
      Descriptor(Some("dns-timeout"), None, Value, Some("dnstimeout")),
      Descriptor(Some("domains"), Some('D'), Value, Some("domains")),
      Descriptor(Some("dot-style"), None, Value, Some("dotstyle")),
      Descriptor(Some("egd-file"), None, Value, Some("egdfile")),
      Descriptor(Some("exclude-directories"), Some('X'), Value, Some("excludedirectories")) ]
  }

  /** main.c:181-186 (indices 24-29). */
  function Group5(b: Build): seq<Descriptor> {
    [ Descriptor(Some("exclude-domains"), None, Value, Some("excludedomains")),
      Descriptor(Some("execute"), Some('e'), Special(Execute, RequiredArgument), None),
      Descriptor(Some("follow-ftp"), None, Boolean, Some("followftp")),
      Descriptor(Some("follow-tags"), None, Value, Some("followtags")),
      Descriptor(Some("force-directories"), Some('x'), Boolean, Some("dirstruct")),
      Descriptor(Some("force-html"), Some('F'), Boolean, Some("forcehtml")) ]
  }

  /** main.c:187-192 (indices 30-35). */
  function Group6(b: Build): seq<Descriptor> {
    [ Descriptor(Some("glob"), Some('g'), Boolean, Some("glob")),
      Descriptor(Some("header"), None, Value, Some("header")),
      Descriptor(Some("help"), Some('h'), Special(Help, NoArgument), None),
      Descriptor(Some("host-directories"), None, Boolean, Some("addhostdir")),
      Descriptor(Some("html-extension"), Some('E'), Boolean, Some("htmlextension")),
      Descriptor(Some("htmlify"), None, Boolean, Some("htmlify")) ]
  }

  /** main.c:193-198 (indices 36-41). */
  function Group7(b: Build): seq<Descriptor> {
    [ Descriptor(Some("http-keep-alive"), None, Boolean, Some("httpkeepalive")),
      Descriptor(Some("http-passwd"), None, Value, Some("httppasswd")),
      Descriptor(Some("http-user"), None, Value, Some("httpuser")),
      Descriptor(Some("ignore-length"), None, Boolean, Some("ignorelength")),
      Descriptor(Some("ignore-tags"), Some('G'), Value, Some("ignoretags")),
      Descriptor(Some("include-directories"), Some('I'), Value, Some("includedirectories")) ]
  }

  /** main.c:199-204 (indices 42-47). */
  function Group8(b: Build): seq<Descriptor> {
    [ Descriptor(Some("input-file"), Some('i'), Value, Some("input")),
      Descriptor(Some("keep-session-cookies"), None, Boolean, Some("keepsessioncookies")),
      Descriptor(Some("level"), Some('l'), Value, Some("reclevel")),
      Descriptor(Some("limit-rate"), None, Value, Some("limitrate")),
      Descriptor(Some("load-cookies"), None, Value, Some("loadcookies")),
      Descriptor(Some("mirror"), Some('m'), Boolean, None) ]
  }

  /** main.c:205-210 (indices 48-53). */
  function Group9(b: Build): seq<Descriptor> {
    [ Descriptor(Some("no"), Some('n'), Special(LegacyNo, RequiredArgument), None),
      Descriptor(Some("no-clobber"), None, Boolean, Some("noclobber")),
      Descriptor(Some("no-parent"), None, Boolean, Some("noparent")),
      Descriptor(Some("output-document"), Some('O'), Value, Some("outputdocument")),
      Descriptor(Some("output-file"), Some('o'), Value, Some("logfile")),
      Descriptor(Some("page-requisites"), Some('p'), Boolean, Some("pagerequisites")) ]
  }

  /** main.c:211-216 (indices 54-59). */
  function Group10(b: Build): seq<Descriptor> {
    [ Descriptor(Some("parent"), None, Special(Parent, OptionalArgument), None),
      Descriptor(Some("passive-ftp"), None, Boolean, Some("passiveftp")),
      Descriptor(Some("post-data"), None, Value, Some("postdata")),
      Descriptor(Some("post-file"), None, Value, Some("postfile")),
      Descriptor(Some("progress"), None, Value, Some("progress")),
      Descriptor(Some("proxy"), Some('Y'), Boolean, Some("useproxy")) ]
  }

  /** main.c:217-222 (indices 60-65). */
  function Group11(b: Build): seq<Descriptor> {
    [ Descriptor(Some("proxy-passwd"), None, Value, Some("proxypasswd")),
      Descriptor(Some("proxy-user"), None, Value, Some("proxyuser")),
      Descriptor(Some("quiet"), Some('q'), Boolean, Some("quiet")),
      Descriptor(Some("quota"), Some('Q'), Value, Some("quota")),
      Descriptor(Some("random-wait"), None, Boolean, Some("randomwait")),
      Descriptor(Some("read-timeout"), None, Value, Some("readtimeout")) ]
  }

  /** main.c:223-228 (indices 66-71). */
  function Group12(b: Build): seq<Descriptor> {
    [ Descriptor(Some("recursive"), Some('r'), Boolean, Some("recursive")),
      Descriptor(Some("referer"), None, Value, Some("referer")),
      Descriptor(Some("reject"), Some('R'), Value, Some("reject")),
      Descriptor(Some("relative"), Some('L'), Boolean, Some("relativeonly")),
      Descriptor(Some("remove-listing"), None, Boolean, Some("removelisting")),
      Descriptor(Some("restrict-file-names"), None, Boolean, Some("restrictfilenames")) ]
  }

  /** main.c:229-234 (indices 72-77). */
  function Group13(b: Build): seq<Descriptor> {
    [ Descriptor(Some("retr-symlinks"), None, Boolean, Some("retrsymlinks")),
      Descriptor(Some("retry-connrefused"), None, Boolean, Some("retryconnrefused")),
      Descriptor(Some("save-cookies"), None, Value, Some("savecookies")),
      Descriptor(Some("save-headers"), None, Boolean, Some("saveheaders")),
      Descriptor(Some("server-response"), Some('S'), Boolean, Some("serverresponse")),
      Descriptor(Some("span-hosts"), Some('H'), Boolean, Some("spanhosts")) ]
  }

  /** main.c:235-240 (indices 78-83). */
  function Group14(b: Build): seq<Descriptor> {
    [ Descriptor(Some("spider"), None, Boolean, Some("spider")),
      Descriptor(IfSsl(b, "sslcadir"), None, Value, Some("sslcadir")),
      Descriptor(IfSsl(b, "sslcafile"), None, Value, Some("sslcafile")),
      Descriptor(IfSsl(b, "sslcertfile"), None, Value, Some("sslcertfile")),
      Descriptor(IfSsl(b, "sslcertkey"), None, Value, Some("sslcertkey")),
      Descriptor(IfSsl(b, "sslcerttype"), None, Value, Some("sslcerttype")) ]
  }

  /** main.c:241-246 (indices 84-89). */
  function Group15(b: Build): seq<Descriptor> {
    [ Descriptor(IfSsl(b, "sslcheckcert"), None, Value, Some("sslcheckcert")),
      Descriptor(IfSsl(b, "sslprotocol"), None, Value, Some("sslprotocol")),
      Descriptor(Some("strict-comments"), None, Boolean, Some("strictcomments")),
      Descriptor(Some("timeout"), Some('T'), Value, Some("timeout")),
      Descriptor(Some("timestamping"), Some('N'), Boolean, Some("timestamping")),
      Descriptor(Some("tries"), Some('t'), Value, Some("tries")) ]
  }

  /** main.c:247-253 (indices 90-96). */
  function Group16(b: Build): seq<Descriptor> {
    [ Descriptor(Some("use-proxy"), Some('Y'), Boolean, Some("useproxy")),
      Descriptor(Some("user-agent"), Some('U'), Value, Some("useragent")),
      Descriptor(Some("verbose"), Some('v'), Boolean, Some("verbose")),
      Descriptor(Some("verbose"), None, Boolean, Some("verbose")),
      Descriptor(Some("version"), Some('V'), Special(Version, NoArgument), Some("version")),
      Descriptor(Some("wait"), Some('w'), Value, Some("wait")),
      Descriptor(Some("waitretry"), None, Value, Some("waitretry")) ]
  }
}
