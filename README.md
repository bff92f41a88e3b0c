# wget command-line core, modelled in Dafny

This project models the command-line core of wget's `main` (src/main.c) and
proves properties of it:

- **The option table.** `option_data` is a sequence of descriptors. It depends
  on two build switches, SSL support and debugging support, which can compile
  long names out (`OptionTable`).
- **The option compiler.** `no_prefix` is a bump allocator over a 1024-byte
  static buffer (`NoPrefix`). `init_switches` fills `long_options`,
  `short_options` and `optmap` through the counters `o` and `p` (`Switches`).
  Both are proved against functions that say what the arrays hold after the
  first n descriptors.
- **Facts about wget's own table.** Its sizes, that it fits the static arrays,
  and the descriptors whose position matters (`TableFacts`, `OptionFacts`).
- **The getopt_long loop.** Each token getopt_long returns is resolved to a
  descriptor and a "negated" bit: by masking `BOOLEAN_NEG_MARKER`, or through
  `optmap` for a short option. Its effect is then applied (`OptionLoop`).
  - `setoptval` and `run_command` calls are recorded, in order, in a log.
  - `exit (n)` is an exit status in the result.
  - The loop is the class `CommandLine`. Its methods are proved against the
    functions `Dispatch` and `Parse`, which make the `'?'` test only for a
    token without a long index, as the loop evidently intends (see
    "## Findings"). `DispatchAsWritten` is the loop body with the test as
    written.
- **The post-parse checks.** Three remaps of the option record, in a fixed
  order, then three sanity checks that exit 1 (`Validate`). They act in place
  on a class `Options`.
- **The retrieval driver.** The per-URL choice between `retrieve_tree` and
  `retrieve_url`, the input file last, and the exit code (`Driver`).
  Retrieval results are a parameter.
- **exec_name.** `argv[0]` without its directory part (`ExecName`).

## Model

| member | source | states |
|---|---|---|
| NoPrefix.NameBuffer.constructor | src/main.c:262-263 | The static buffer is 1024 bytes and the cursor starts at its beginning, with no names handed out. |
| NoPrefix.NameBuffer.NoPrefix | src/main.c:259-277 | `no_prefix` aborts, writing nothing, exactly when `p + 3 + strlen(s) + 1 >= buffer + 1024`. Otherwise it returns the old cursor, stores `"no-" + s` and its NUL there, advances the cursor by that size, and keeps every earlier byte. |
| NoPrefix.NameBuffer.Store | src/main.c:271-274 | The three stores and the `strcpy` leave `"no-" + s + NUL` at `cp` and change nothing before `cp` or after the stored name. |
| NoPrefix.RegionsIncrease | src/main.c:265-275 | Successive results occupy disjoint, increasing regions: the j-th region ends no later than the k-th one starts. |
| Switches.WithMarker | src/main.c:331 | OR-ing BOOLEAN_NEG_MARKER into a val sets the marker bit. Below 1024 it adds exactly 1024. |
| Switches.WithoutMarker | src/main.c:541 | `val & ~BOOLEAN_NEG_MARKER` clears the marker bit. It leaves a value without the bit unchanged and otherwise subtracts 1024. |
| Switches.MarkerRoundTrip | src/main.c:541-554 | For every descriptor index below 1024, masking recovers the index from both of its entries. The marker bit is set on the negated entry only. |
| Switches.ToUChar | src/main.c:309 | Storing an entry index into `unsigned char` keeps every value below 256. |
| Switches.ZeroMap | src/main.c:284 | The static `optmap` starts as 96 zero cells. |
| Switches.LastWithShort | src/main.c:306-310 | The last enabled descriptor with short name c. No later enabled descriptor has that letter, and None means no enabled descriptor has it. |
| Switches.FirstWithShort | src/main.c:306-310 | The first enabled descriptor with short name c. No earlier enabled descriptor has that letter, and None means no enabled descriptor has it. |
| Switches.GetoptFindsFirst | src/main.c:306-341 | A scan of `short_options` for a letter stops at the first descriptor with that letter: the letter is there, not earlier, and `:` follows it exactly when that descriptor requires an argument. |
| Switches.LetterAbsent | src/main.c:306-308 | A letter no enabled descriptor has never occurs in `short_options`. |
| Switches.LongOptions | src/main.c:299-332 | Defines `long_options` after n descriptors: each enabled descriptor's entry, then its "no-" entry if it is a boolean. |
| Switches.EntriesFor | src/main.c:299-332 | Defines the entries one descriptor adds: none when its long name is compiled out, its own entry, and a "no-" entry for a boolean. |
| Switches.HasArg | src/main.c:311-341 | Defines the `has_arg` of a descriptor's entry: `required_argument` for OPT_VALUE, `optional_argument` for OPT_BOOLEAN, and its `argtype` for a special option. |
| Switches.MapLetter | src/main.c:309 | `optmap[c - 32]` becomes the entry index, truncated to unsigned char. The map keeps its 96 cells. |
| Switches.ShortOptions | src/main.c:306-340 | Defines `short_options` after n descriptors: each letter, followed by `:` when its descriptor requires an argument. |
| Switches.OptMap | src/main.c:306-310 | Defines `optmap` after n descriptors: each letter maps to the index of its descriptor's first entry. |
| Switches.NoBytes | src/main.c:318-327 | Defines the bytes `no_prefix` uses for n descriptors: `strlen("no-" + name) + 1` per enabled boolean. |
| Switches.LongOptionsBound | src/main.c:280-344 | After n descriptors at most 2n entries are written, so the terminator fits `long_options[2 * countof + 1]`. |
| Switches.LongOptionsStable | src/main.c:303-331 | Later descriptors only append to `long_options`. They never change an earlier entry. |
| Switches.ShortOptionsStable | src/main.c:306-340 | Later descriptors only append to `short_options`. |
| Switches.ShortOptionsGrow | src/main.c:306-340 | `short_options` only grows as descriptors are processed. |
| Switches.NoBytesMonotone | src/main.c:326-327 | The buffer bytes `no_prefix` needs only grow with the number of descriptors processed. |
| Switches.EntryOf | src/main.c:299-305 | An enabled descriptor i has an entry at its start index with its long name, its `has_arg` and `val == i`. |
| Switches.NegatedEntryOf | src/main.c:318-332 | An enabled boolean i also has the next entry: named `"no-" + name`, with `no_argument` and a val of i with the 1024 bit set. |
| Switches.EntriesForFrom | src/main.c:299-332 | Each entry a descriptor emits is one its own val identifies. |
| Switches.EntryDetermined | src/main.c:303-331 | Every entry of `long_options` is fixed by its val: an enabled descriptor's plain entry, or an enabled boolean's "no-" entry. Disabled descriptors have none. |
| Switches.EntryPosition | src/main.c:299-332 | Where each entry sits: an entry with val j below the marker is at descriptor j's start index, and one with val j + 1024 is right after it. |
| Switches.EntryUnique | src/main.c:299-332 | Exactly one entry of `long_options` has val i, the one at i's start index, and at most one has val i with the marker bit, the next one. |
| Switches.ShortLetterOf | src/main.c:306-308 | Every enabled descriptor with a short name puts that letter in `short_options`, at its position. |
| Switches.ShortColonOf | src/main.c:311-341 | A `:` follows the letter exactly when the descriptor requires an argument: OPT_VALUE, or a special type with `required_argument`. |
| Switches.ColonFollows | src/main.c:313-317 | The letter of a descriptor that requires an argument is followed by `:`. |
| Switches.NothingFollows | src/main.c:318-341 | The letter of a boolean or of an optional-argument option is never followed by `:`. |
| Switches.NextShortIsLetter | src/main.c:306-308 | Where a descriptor's characters start in `short_options` there is a letter, never `:`. |
| Switches.OptMapFindsLast | src/main.c:306-310 | `optmap[c - 32]` holds the start index of the last enabled descriptor with letter c. An earlier descriptor with the same letter is overwritten. |
| Switches.ShortResolves | src/main.c:534-536 | A short option resolves through `optmap` to the plain entry of that descriptor, never to its "no-" entry. |
| Switches.Step | src/main.c:294-343 | One descriptor extends the long entries, the short string, `optmap` and the `no_prefix` bytes by its own contribution. |
| Switches.Switches.constructor | src/main.c:280-284 | The static arrays are sized `2 * countof + 1`, 128 and 96, and `optmap` is zero. |
| Switches.Switches.InitSwitches | src/main.c:289-346 | `init_switches` aborts exactly when the "no-" names overflow `no_prefix`'s buffer. Otherwise the arrays hold the compiled table with its terminators, and `no_prefix` consumed exactly those names' bytes. |
| Switches.Switches.Finish | src/main.c:344-345 | `xzero (long_options[o])` and `*p = '\0'` complete the compiled structures. |
| Switches.Switches.CompileAll | src/main.c:294-343 | The loop over the table aborts exactly when the "no-" names overflow `no_prefix`'s buffer. Otherwise it leaves the arrays holding the whole table's entries, characters and `optmap`, with exactly those names' bytes consumed. |
| Switches.Switches.CompileNext | src/main.c:294-343 | One loop pass takes the arrays from the first i descriptors' contents to the first i + 1's. It aborts in `no_prefix` exactly when the first i + 1 descriptors' names overflow the buffer, and then so do all of them. |
| Switches.Switches.CompileOne | src/main.c:296-342 | The pass for descriptor i appends exactly its entries and characters and updates `optmap` for its letter. |
| Switches.Switches.EmitLetter | src/main.c:306-310 | The letter goes to `short_options[p]`, and `optmap[c - 32]` gets the index of the first entry. |
| Switches.Switches.EmitBoolean | src/main.c:318-332 | A boolean's second entry gets a `no_prefix` name, `no_argument` and the masked val. It aborts exactly when the buffer is full. |
| Switches.Switches.PutLong | src/main.c:303-304 | One write to `long_options[o]` appends an entry and keeps the earlier ones. |
| Switches.Switches.PutShort | src/main.c:308 | `*p++ = c` appends a character and keeps the earlier ones. |
| TableFacts.TableCounts | src/main.c:155-254 | `option_data` has 97 descriptors. The "no-" names take 650 bytes with debugging support and 641 without. The short string has 63 or 62 characters. |
| OptionTable.IfSsl | src/main.c:123-127 | Defines `IF_SSL`: the name with SSL support, NULL without. |
| OptionTable.IfDebug | src/main.c:129-133 | Defines `IF_DEBUG`: the name with debugging support, NULL without. |
| OptionTable.OptionData | src/main.c:155-254 | Defines `option_data`: the 97 descriptors in source order, for a given build. The facts about it are the TableFacts and OptionFacts lemmas. |
| TableFacts.TableFits | src/main.c:155-254 | In every build the table fits `short_options[128]`, `optmap`'s unsigned char and the 1024-byte `no_prefix` buffer. Every special option that reads its argument requires one. |
| TableFacts.Startup | src/main.c:515-517 | `init_switches` on the zeroed static storage never aborts and leaves the compiled `option_data` in the arrays. |
| TableFacts.QuotaAtQuestionMark | src/main.c:220 | Descriptor 63 is "quota", and 63 is the code of `'?'`. |
| TableFacts.ShortYTwice | src/main.c:216-247 | `'Y'` belongs to "proxy" (59) and "use-proxy" (90), and the last one with the letter is 90. |
| TableFacts.VerboseTwice | src/main.c:249-250 | "verbose" appears at 92 with `'v'` and at 93 without, and `'v'` belongs last to 92. |
| TableFacts.NoClobberIsBoolean | src/main.c:206 | Descriptor 49 is "no-clobber", itself a boolean on the command noclobber. |
| TableFacts.ParentDescriptors | src/main.c:207-211 | "no-parent" is a boolean at 50 and "parent" is the special OPT__PARENT with `optional_argument` at 54. |
| TableFacts.ClobberDescriptor | src/main.c:165 | Descriptor 8 is "clobber", the special OPT__CLOBBER with `optional_argument`. |
| TableFacts.TableLettersAgree | src/main.c:155-254 | In every build, the descriptors of `option_data` that share a short letter agree on whether it takes `:`. |
| OptionLoop.EntryIndex | src/main.c:534-535 | The entry index, `longindex` or `optmap[ret - 32]`, is always inside `long_options`. |
| OptionLoop.Resolved | src/main.c:536 | `long_options[longindex]` is an entry its val identifies. |
| OptionLoop.Unmask | src/main.c:541-554 | Masking the val gives an enabled descriptor. The marker is present only on "no-" entries, which are booleans without an argument. |
| OptionLoop.Target | src/main.c:541 | `option_data[val & ~BOOLEAN_NEG_MARKER]` is a descriptor of the table, and getopt_long supplied the argument its handling reads. |
| OptionLoop.HandleArgument | src/main.c:544-604 | The resolved val is below `1024 + countof`, its masked index is inside the table, and the argument its handling reads is present. |
| OptionLoop.FromGetopt | src/main.c:519-536 | Defines the tokens getopt_long is taken to return: the error report, a short option with an argument as the first descriptor with its letter says, or a long option matching its entry's `has_arg`. |
| OptionLoop.Dispatch | src/main.c:524-541 | Defines the loop body with the `'?'` test made only without a long index, the corrected half of the Findings row. |
| OptionLoop.DispatchAsWritten | src/main.c:524-541 | Defines the loop body as written, `'?'` tested first, the as-written half of the Findings row. AsWrittenDiffers and QuotaAsWritten state where it differs. |
| OptionLoop.Act | src/main.c:542-633 | Defines the effect of the switch on the option type for a resolved descriptor. ExitStatuses and the per-option lemmas below state it. |
| OptionLoop.Handle | src/main.c:534-633 | Defines a token that is not an error: resolve the entry, mask the val and act on that descriptor with the marker bit as `neg`. |
| OptionLoop.ToLower | src/main.c:613-615 | Defines `TOLOWER` on ASCII: upper-case letters map to lower case, and every other character is kept. |
| OptionLoop.ParentFlag | src/main.c:611-615 | Defines the flag of `--parent` and `--clobber`. ParentFlagFirstTwo and ParentFlagSpellings state it. |
| OptionLoop.LegacySetting | src/main.c:579-595 | Defines the setting of one `-n` character: v, H, d, c and p, and None for any other. |
| OptionLoop.LegacyNoChars | src/main.c:578-602 | Defines the `-n` loop over its argument. LegacyNoCharsSpec and LegacyNoStops state it. |
| OptionLoop.Parse | src/main.c:519-635 | Defines the whole loop in the corrected form: the steps' calls in order, up to the first that exits. RunStops and ParseOptions state it. |
| OptionLoop.Steps | src/main.c:519-635 | One loop-body result per token, in order: the k-th is the corrected loop body (`Dispatch`) on the k-th token. |
| OptionLoop.RunStops | src/main.c:524-630 | Once a step exits, the tokens after it are never looked at. |
| OptionLoop.ExitStatuses | src/main.c:524-631 | In the corrected loop, a pass exits 2 exactly on getopt_long's error report. It exits 0 only for `--help` and `--version`, and 1 only for a `-n` argument with an illegal character. Every other option goes on. |
| OptionLoop.LongBoolean | src/main.c:547-557 | `--NAME` on a boolean sets its command to the argument given, or to "1" without one. |
| OptionLoop.NegatedBoolean | src/main.c:552-556 | `--no-NAME` sets the same command to "0". |
| OptionLoop.LongValue | src/main.c:524-546 | In the corrected loop, `--NAME=ARG` on any value option hands ARG to its command. The loop as written does the same for every value option except descriptor 63, whose val is `'?'`; there it exits 2. |
| OptionLoop.LongAppendOutput | src/main.c:558-561 | `--append-output=FILE` sets "logfile" to FILE and sets `append_to_log`. |
| OptionLoop.ShortOption | src/main.c:534-536 | A short option acts as the plain, never negated, entry of the last descriptor with that letter. It carries an argument exactly when that descriptor requires one. |
| OptionLoop.InvertedFlag | src/main.c:605-619 | For any argument, `--parent[=ARG]` and `--clobber[=ARG]` write the inverted flag into noparent or noclobber: "0" when the flag is on, "1" when ARG spells it off. |
| OptionLoop.FlagSpellings | src/main.c:605-619 | Given a boolean "no-NAME" on the command noparent or noclobber and the special "NAME" that writes it: `--no-NAME` and `--NAME=off` both set it to "1", and `--no-no-NAME` and a bare `--NAME` both set it to "0". |
| OptionLoop.ParentFlagFirstTwo | src/main.c:611-615 | The flag reads at most the first two characters of the argument: anything after them does not change it. |
| OptionLoop.ParentFlagSpellings | src/main.c:611-615 | No argument, "1", "y", "Yes", "on", "ON" and "oN" turn the option on; "", "0", "no", "off", "OFF", a lone "o" and "true" turn it off. |
| OptionLoop.DoubleNegation | src/main.c:547-556 | A boolean named "no-X" gets an entry "no-no-X", which writes "0". |
| OptionLoop.AsWrittenDiffers | src/main.c:524-530 | The loop as written differs from the corrected one only on a long option whose val is `'?'`, that is descriptor 63. There the written loop exits 2, and the corrected one acts on descriptor 63 and never exits 2. |
| OptionLoop.LegacyNoCharsSpec | src/main.c:572-604 | `-n` applies the settings of its characters left to right. It stops at the first illegal character and reports it; the settings before it have been applied. |
| OptionLoop.LegacyNoStops | src/main.c:596-601 | Nothing after the first illegal `-n` character is read. |
| OptionLoop.CommandLine.constructor | src/main.c:517-518 | The loop starts over the compiled tables with nothing set and `append_to_log` off. |
| OptionLoop.CommandLine.HandleToken | src/main.c:521-634 | One loop pass appends exactly the calls `Dispatch` gives and sets `append_to_log` and the exit status as it says. |
| OptionLoop.CommandLine.Apply | src/main.c:542-632 | The switch on the option type has the effect `Act` gives for the resolved descriptor. |
| OptionLoop.CommandLine.ApplyLegacyNo | src/main.c:572-604 | The character loop over a `-n` argument makes the settings `LegacyNoChars` gives, then exits 1 exactly on an illegal character. |
| OptionLoop.CommandLine.ParseOptions | src/main.c:519-635 | The whole loop leaves the calls, `append_to_log` and the exit status that `Parse` gives for the token stream. It stops at the first token that exits. |
| OptionLoop.CommandLine.NextToken | src/main.c:519-535 | The loop body on the i-th token is the i-th step. |
| OptionFacts.DataReady | src/main.c:155-254 | `option_data` in every build is a table the dispatcher can read. |
| OptionFacts.QuotaAsWritten | src/main.c:524-530 | `--quota=ARG` is a valid long option whose val is 63, and the loop as written exits 2 on it. |
| OptionFacts.QuotaCorrected | src/main.c:544-546 | With the corrected '?' test, `--quota=ARG` sets "quota" to ARG. |
| OptionFacts.ShortY | src/main.c:534-536 | `-Y` resolves to "use-proxy" (90), the later of the two, and turns useproxy on. |
| OptionFacts.ShortV | src/main.c:534-536 | `-v` resolves to descriptor 92 and turns verbose on. |
| OptionFacts.ParentSpellingsOnTable | src/main.c:605-619 | On `option_data` ("no-parent" at 50, "parent" at 54), `--no-parent` and `--parent=off` both set noparent to "1", and `--no-no-parent` and `--parent` both set it to "0". |
| OptionFacts.ClobberSpellingsOnTable | src/main.c:605-619 | On `option_data` ("no-clobber" at 49, "clobber" at 8), `--no-clobber` and `--clobber=off` both set noclobber to "1", and `--no-no-clobber` and `--clobber` both set it to "0". |
| OptionFacts.NoNoClobberEntry | src/main.c:318-332 | Because "no-clobber" is a boolean, `long_options` holds "no-no-clobber" right after its entry, with `no_argument` and val 49 with the 1024 bit set. |
| Validate.RemapFields | src/main.c:640-654 | The remaps field by field: reclevel, dirstruct and verbose, with every other field unchanged. |
| Validate.RemapDepth | src/main.c:640-651 | After the remaps reclevel is 0 exactly for `--page-requisites` without `-r`. Otherwise a depth of 0 becomes unlimited and any other depth is kept. |
| Validate.DefaultNeverConflicts | src/main.c:653-662 | A defaulted verbose never triggers the verbose/quiet exit. Only an explicit nonzero verbose together with quiet does. |
| Validate.RemapIdempotent | src/main.c:640-654 | Applying the remaps a second time changes nothing. |
| Validate.Remap | src/main.c:640-654 | Defines the three remaps in the order main applies them. |
| Validate.Problem | src/main.c:657-681 | Defines the three sanity checks on the remapped record, each exiting 1. |
| Validate.ProceedsWhen | src/main.c:640-681 | In terms of the options the user gave, main goes on exactly when verbose was not explicitly on together with quiet, timestamping is not combined with no-clobber, and there is a URL or an input file. Every failure exits 1. |
| Validate.Options.Check | src/main.c:640-681 | The option record is remapped in place, then the exit status of the first failing check is returned. |
| Driver.UrlCalls | src/main.c:761-765 | One call per URL in order: `retrieve_tree` exactly when `-r` or `-p` is on and the URL is not FTP. |
| Driver.FillUrls | src/main.c:692-700 | Each URL argument is replaced by its shorthand rewrite when there is one, in order. |
| Driver.RetrieveAll | src/main.c:754-787 | The calls made are the URLs' calls, then the input file's. The return value is 0 exactly when the last status is RETROK. |
| Driver.PlanCalls | src/main.c:756-787 | The k-th call fetches the k-th URL with the strategy above, and the input file comes last. |
| Driver.OnlyLastCounts | src/main.c:818-821 | Two runs whose last calls return the same status end alike, whatever the earlier calls returned. |
| Driver.InputFileDecides | src/main.c:780-787 | With an input file, main returns 0 exactly when `retrieve_from_file` returns RETROK. |
| Driver.CheckedRunsRetrieve | src/main.c:670-681 | After the checks pass there is at least one call, so the initial RETROK is never what decides the return value. |
| Driver.Expanded | src/main.c:695-699 | Defines the URL kept for an argument: its shorthand rewrite, or the argument itself. |
| Driver.Plan | src/main.c:756-787 | Defines every call main makes: the URLs' calls, then the input file's. |
| Driver.StatusAfter | src/main.c:754-783 | Defines `status` after n calls: RETROK before any, then what the latest call returned. |
| Driver.ExitCode | src/main.c:818-821 | Defines main's return value: 0 for RETROK, 1 otherwise. |
| ExecName.LastIndex | src/main.c:504 | `strrchr`: the last position holding the separator, or None when there is none. |
| ExecName.ExecName | src/main.c:504-508 | Defines `exec_name`: the text after the last `/`, or all of `argv[0]` without one. ExecNameSplits, ExecNameIdempotent and ExecNameOfPath state it. |
| ExecName.ExecNameSplits | src/main.c:504-508 | `argv[0]` is a directory part, either empty or ending in `/`, followed by `exec_name`, which has no `/`. |
| ExecName.ExecNameIdempotent | src/main.c:504-508 | A name without `/` is its own `exec_name`, so taking it twice changes nothing. |
| ExecName.ExecNameOfPath | src/main.c:504-508 | `dir + "/" + name` gives `name` when name has no `/`. |

## Left out

- getopt_long itself is a library routine and is not modelled. A token is
  what one call returns: `ret`, the `longindex` it stored, and `optarg`.
  `FromGetopt` is the model's account of the tokens it returns for the
  compiled tables, not a proof about getopt_long.
  Argument permutation and `optind` are not modelled; the number of URLs is
  a parameter of the checks.
- `setoptval`, `run_command` and `initialize` live in init.c, which is not
  part of this model. Their calls are recorded; value coercion and wgetrc
  reading are not modelled.
- The `"mirror"` descriptor has a NULL `handle_cmd`. Its call is recorded
  with key None, and nothing is claimed about what `setoptval` does with it.
- `print_usage`, `print_help`, the version text and `i18n_initialize` print
  constant text. Only their exit statuses are modelled.
- `fork_to_background`, `set_progress_implementation`, `log_init`,
  `log_close`, and opening the output document are I/O and are left out.
  So are the `--delete-after` unlink, the cookie jar, link conversion,
  `cleanup`, and the Windows hooks.
- Signal handlers are asynchronous and are left out.
- The "FINISHED" summary and the quota warning log byte counters and time
  strings, which only produce output.
- `retrieve_url`, `retrieve_tree`, `retrieve_from_file`, `url_scheme` and
  `rewrite_shorthand_url` are parameters (`outcome`, `isFtp`, `rewrite`).
  The count `retrieve_from_file` reports only chooses a message.
- Driver.FillUrls: the array holds the nurl URLs without the trailing NULL
  sentinel; the loop over it is bounded by its length.
- Driver.RetrieveAll: the status of each retrieval is a function of its
  position and its call. It does not capture retrievals that depend on each
  other through shared state.
- Every retrieval overwrites `status`, and main returns 0 exactly when the
  last status is RETROK (src/main.c:754-787, 818-821). An earlier failure
  does not change the return value.
- `INFINITE_RECURSION` is defined in wget.h, which is not part of this
  model. It is modelled as -1; the code only needs it to be nonzero.
- Bit operations on `val` (`| 1024`, `& ~1024`, `& 1024`) are stated
  arithmetically on non-negative values, which agree with the C operations
  for the values that occur.
- Strings are sequences without a terminating NUL. The C tests that stop at
  the NUL (`*optarg`, `optarg[1]`, `*p`) become length tests.
- A short name is a printable ASCII character other than `:`, which covers
  every letter in the table; `optmap[c - 32]` would otherwise be out of
  bounds.
- Validate.Options.Check: the record holds only the ten fields the checks
  read or write, not all of `struct options`.
- OptionLoop.CommandLine.ParseOptions: it runs from the state main has
  before the loop, with nothing set yet and `append_to_log` off. It follows
  the corrected `'?'` test of "## Findings", not the test as written, so
  it does not promise what main does with a long option whose val is 63.
- OptionLoop.CommandLine.HandleToken: it follows the corrected `'?'` test;
  on a long option whose val is 63 the code as written exits 2 instead
  (OptionFacts.QuotaAsWritten).
- OptionLoop.CommandLine.NextToken: it follows the corrected `'?'` test, as
  HandleToken does.
- OptionLoop.Steps: each step is the corrected loop body; the as-written
  body is DispatchAsWritten, and AsWrittenDiffers says where they differ.
- OptionLoop.Parse: it is the corrected loop; the model has no whole-loop
  function for the test as written.
- OptionLoop.ExitStatuses: it is stated for the corrected loop. As written,
  a long option whose val is 63 also exits 2 (OptionLoop.AsWrittenDiffers).
- OptionLoop.LongBoolean, OptionLoop.NegatedBoolean,
  OptionLoop.LongAppendOutput, OptionLoop.ShortOption,
  OptionLoop.InvertedFlag, OptionLoop.FlagSpellings and
  OptionLoop.DoubleNegation are stated for the corrected loop; they agree
  with the code as written except on descriptor 63, which in
  `option_data` is the value option "quota".
- OptionLoop.Ready: tables in which two descriptors with the same letter
  disagree on `:` are not modelled; for them getopt_long would take the
  first descriptor's `:` while main acts on the last one's, which could
  read a missing argument. `option_data` has no such pair
  (TableFacts.TableLettersAgree).
- Switches.Switches.InitSwitches: the `assert (opt->argtype != -1)` holds
  by construction, because a special option always carries an argument
  requirement.

## Findings

| source | as written | input that shows it | evidently intended | confidence | as-written member | corrected member |
|---|---|---|---|---|---|---|
| src/main.c:524 | `ret` is compared with `'?'` before `longindex` is looked at, so any option whose val is 63 is treated as getopt_long's error report. | `--quota=5`: "quota" is `option_data[63]`, getopt_long returns its val 63, which is `'?'`, and main prints the usage and exits 2. | Treat `'?'` as an error only when getopt_long matched no long entry (`longindex == -1`). | not executed; high, since the index and the comparison are both fixed in the source | OptionFacts.QuotaAsWritten | OptionFacts.QuotaCorrected |
