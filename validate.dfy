/**
 * The checks main makes once every option is processed (src/main.c:640-681):
 * three remaps of the option record, in a fixed order, then three sanity
 * checks, each of which exits 1.
 */
module Validate {
  import opened Wrappers

  /** INFINITE_RECURSION (wget.h): any nonzero value serves; the model uses -1. */
  const InfiniteRecursion: int := -1

  /** The fields of the option record the checks read or write. */
  datatype Config = Config(
    reclevel: int,
    pageRequisites: bool,
    recursive: bool,
    noDirstruct: bool,
    dirstruct: bool,
    verbose: int,
    quiet: bool,
    timestamping: bool,
    noclobber: bool,
    inputFilename: Option<string>)

  // ---------------------------------------------------------------------------
  // Specification

  /** reclevel 0 means no limit (main.c:640-641). */
  function DefaultDepth(c: Config): Config {
    if c.reclevel == 0 then c.(reclevel := InfiniteRecursion) else c
  }

  /** --page-requisites without -r fetches one level, into the directory structure unless -nd (main.c:643-651). */
  function RequisitesOnly(c: Config): Config {
    if c.pageRequisites && !c.recursive then
      c.(reclevel := 0, dirstruct := if !c.noDirstruct then true else c.dirstruct)
    else c
  }

  /** An unset verbose (-1) becomes the opposite of quiet (main.c:653-654). */
  function DefaultVerbose(c: Config): Config {
    if c.verbose == -1 then c.(verbose := if c.quiet then 0 else 1) else c
  }

  /** The three remaps, in the order main applies them. */
  function Remap(c: Config): Config {
    DefaultVerbose(RequisitesOnly(DefaultDepth(c)))
  }

  /** The first sanity check that fails on the remapped record, given the number of URLs on the command line. */
  function Problem(c: Config, nurl: nat): Option<int> {
    if c.verbose != 0 && c.quiet then Some(1)
    else if c.timestamping && c.noclobber then Some(1)
    else if nurl == 0 && c.inputFilename.None? then Some(1)
    else None
  }

  // ---------------------------------------------------------------------------
  // Properties

  /** The remaps field by field. */
  lemma RemapFields(c: Config)
    ensures var r := Remap(c);
      r.reclevel == (if c.pageRequisites && !c.recursive then 0 else if c.reclevel == 0 then InfiniteRecursion else c.reclevel) &&
      r.dirstruct == (c.dirstruct || (c.pageRequisites && !c.recursive && !c.noDirstruct)) &&
      r.verbose == (if c.verbose == -1 then (if c.quiet then 0 else 1) else c.verbose) &&
      r.(reclevel := c.reclevel, dirstruct := c.dirstruct, verbose := c.verbose) == c
  {
    var d := DefaultDepth(c);
    var q := RequisitesOnly(d);
    assert d.(reclevel := c.reclevel) == c;
    assert q.(reclevel := c.reclevel, dirstruct := c.dirstruct) == c;
  }

  /**
   * After the remaps reclevel is 0 exactly for --page-requisites without -r;
   * otherwise it is the user's depth, 0 having become unlimited.
   */
  lemma RemapDepth(c: Config)
    ensures Remap(c).reclevel == 0 <==> c.pageRequisites && !c.recursive
    ensures !(c.pageRequisites && !c.recursive) ==>
      Remap(c).reclevel == if c.reclevel == 0 then InfiniteRecursion else c.reclevel
  {
    RemapFields(c);
  }

  /**
   * Defaulting verbose happens before the verbose/quiet check, so a verbose
   * left unset never triggers it; only an explicit verbose with quiet does.
   */
  lemma DefaultNeverConflicts(c: Config)
    ensures Remap(c).verbose != -1
    ensures c.verbose == -1 ==> !(Remap(c).verbose != 0 && Remap(c).quiet)
    ensures Remap(c).verbose != 0 && Remap(c).quiet <==> c.verbose != -1 && c.verbose != 0 && c.quiet
  {
    RemapFields(c);
  }

  /** The remaps change nothing a second time. */
  lemma RemapIdempotent(c: Config)
    ensures Remap(Remap(c)) == Remap(c)
  {
    var r := Remap(c);
    RemapFields(c);
    RemapFields(r);
  }

  /**
   * In terms of the options the user gave: main goes on exactly when verbose was
   * not turned on explicitly together with quiet, timestamping is not combined
   * with no-clobber, and there is a URL or an input file; every failure exits 1.
   */
  lemma ProceedsWhen(c: Config, nurl: nat)
    ensures Problem(Remap(c), nurl).None? <==>
      !(c.verbose != -1 && c.verbose != 0 && c.quiet) &&
      !(c.timestamping && c.noclobber) &&
      (nurl > 0 || c.inputFilename.Some?)
    ensures Problem(Remap(c), nurl) in {None, Some(1)}
  {
    RemapFields(c);
  }

  // ---------------------------------------------------------------------------
  // The option record, updated in place

  class Options {
    var reclevel: int
    var pageRequisites: bool
    var recursive: bool
    var noDirstruct: bool
    var dirstruct: bool
    var verbose: int
    var quiet: bool
    var timestamping: bool
    var noclobber: bool
    var inputFilename: Option<string>

    /** The record's fields as a Config value. */
    function Fields(): Config
      reads this
    {
      Config(reclevel, pageRequisites, recursive, noDirstruct, dirstruct, verbose, quiet,
        timestamping, noclobber, inputFilename)
    }

    constructor (c: Config)
      ensures Fields() == c
    {
      reclevel := c.reclevel;
      pageRequisites := c.pageRequisites;
      recursive := c.recursive;
      noDirstruct := c.noDirstruct;
      dirstruct := c.dirstruct;
      verbose := c.verbose;
      quiet := c.quiet;
      timestamping := c.timestamping;
      noclobber := c.noclobber;
      inputFilename := c.inputFilename;
    }

    /**
     * main.c:640-681 on a command line with nurl URLs: the record is remapped in
     * place, then the exit status of the first failing check, if any.
     */
    method Check(nurl: nat) returns (exit: Option<int>)
      modifies this
      ensures Fields() == Remap(old(Fields()))
      ensures exit == Problem(Fields(), nurl)
    {
      if reclevel == 0 {
        reclevel := InfiniteRecursion;
      }
      if pageRequisites && !recursive {
        reclevel := 0;
        if !noDirstruct {
          dirstruct := true;
        }
      }
      if verbose == -1 {
        verbose := if quiet then 0 else 1;
      }
      if verbose != 0 && quiet {
        return Some(1);
      }
      if timestamping && noclobber {
        return Some(1);
      }
      if nurl == 0 && inputFilename.None? {
        return Some(1);
      }
      return None;
    }
  }
}
