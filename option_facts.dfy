/**
 * What the dispatcher does with wget's own option table: the options whose
 * handling depends on where they sit in option_data, and the spellings that
 * are meant to agree.
 */
module OptionFacts {
  import opened Wrappers
  import opened OptionTable
  import opened Switches
  import opened TableFacts
  import opened OptionLoop

  /** option_data, as built for either configuration, is a table main can work with. */
  lemma DataReady(b: Build)
    ensures Ready(OptionData(b))
  {
    TableFits(b);
    TableLettersAgree(b);
  }

  /**
   * --quota=ARG as written: "quota" is descriptor 63, the code of '?', so
   * getopt_long returns '?' for it and main exits 2 as for an unknown option.
   */
  lemma QuotaAsWritten(b: Build, arg: string)
    ensures var t := OptionData(b); var tok := Token(63, PositiveIndex(t, 63), Some(arg));
      Ready(t) && FromGetopt(t, tok) && !IsError(tok) &&
      DispatchAsWritten(t, tok) == StepResult([], false, Some(2))
  {
    DataReady(b);
    QuotaAtQuestionMark(b);
    EntryOf(OptionData(b), 63);
  }

  /** --quota=ARG once the '?' test is confined to tokens without a long index: it sets "quota" to ARG. */
  lemma QuotaCorrected(b: Build, arg: string)
    ensures var t := OptionData(b); var tok := Token(63, PositiveIndex(t, 63), Some(arg));
      Ready(t) && FromGetopt(t, tok) && !IsError(tok) &&
      Dispatch(t, tok) == StepResult([SetOpt(Some("quota"), arg)], false, None)
  {
    DataReady(b);
    QuotaAtQuestionMark(b);
    EntryOf(OptionData(b), 63);
    MarkerRoundTrip(63);
  }

  /** -Y resolves to "use-proxy", the later of the two descriptors with that letter, and turns useproxy on. */
  lemma ShortY(b: Build)
    ensures var t := OptionData(b); var tok := Token('Y' as int, -1, None);
      Ready(t) && FromGetopt(t, tok) && Target(t, tok) == t[90] && t[90].longName == Some("use-proxy") &&
      Dispatch(t, tok) == StepResult([SetOpt(Some("useproxy"), "1")], false, None)
  {
    DataReady(b);
    ShortYTwice(b);
    ShortOption(OptionData(b), 'Y', None);
  }

  /** -v resolves to descriptor 92, the one of the two "verbose" entries that has the letter, and turns verbose on. */
  lemma ShortV(b: Build)
    ensures var t := OptionData(b); var tok := Token('v' as int, -1, None);
      Ready(t) && FromGetopt(t, tok) && Target(t, tok) == t[92] &&
      Dispatch(t, tok) == StepResult([SetOpt(Some("verbose"), "1")], false, None)
  {
    DataReady(b);
    VerboseTwice(b);
    ShortOption(OptionData(b), 'v', None);
  }

  /**
   * --no-parent and --parent=off both set noparent to "1"; --no-no-parent and a
   * bare --parent both set it to "0" (main.c:207, 211, 605-619).
   */
  lemma ParentSpellingsOnTable(b: Build)
    ensures Ready(OptionData(b)) && |OptionData(b)| == 97 && Spellings(OptionData(b), 50, 54, "noparent")
  {
    DataReady(b);
    ParentDescriptors(b);
    assert "no-" + "parent" == "no-parent";
    FlagSpellings(OptionData(b), 50, 54, Parent, "parent");
  }

  /**
   * --no-clobber and --clobber=off both set noclobber to "1"; --no-no-clobber and
   * a bare --clobber both set it to "0" (main.c:165, 206, 605-619).
   */
  lemma ClobberSpellingsOnTable(b: Build)
    ensures Ready(OptionData(b)) && |OptionData(b)| == 97 && Spellings(OptionData(b), 49, 8, "noclobber")
  {
    DataReady(b);
    NoClobberIsBoolean(b);
    ClobberDescriptor(b);
    assert "no-" + "clobber" == "no-clobber";
    FlagSpellings(OptionData(b), 49, 8, Clobber, "clobber");
  }

  /** "no-clobber" (main.c:206) is boolean, so long_options also holds "no-no-clobber", marked as its negation. */
  lemma NoNoClobberEntry(b: Build)
    ensures var t := OptionData(b); var at := PositiveIndex(t, 49) + 1;
      |t| == 97 && at < |LongOptions(t, 97)| && LongOptions(t, 97)[at] == LongOption("no-no-clobber", NoArgument, WithMarker(49))
  {
    NoClobberIsBoolean(b);
    assert "no-" + "no-clobber" == "no-no-clobber";
    NegatedEntryOf(OptionData(b), 49);
  }
}
