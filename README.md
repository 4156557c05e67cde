# svf-player: a verified model of libsvfplayer

`svf-player/libsvfplayer.h` turns Serial Vector Format (SVF) text into a
stream of JTAG signal records, one byte per TCK. Bit 0 of each byte is TMS,
bit 1 TDI, bit 2 the expected TDO, bit 3 "TDI is driven" and bit 4 "TDO is
compared". This project models that header in Dafny and proves what it does.

The header has four parts, and so does the model.

- **Tables** (`SvfTables`). The state and verb enums, their name tables, and
  `svfLookupState`/`svfLookupOp`. Also the TAP transition table, indexed as
  `state*2+tms`, and the routing path table with its RESET wildcard row. The
  transition table is proved equal, entry by entry, to the TAP controller
  state diagram of clause 6 of IEEE Std 1149.1.
- **Hex literals** (`SvfHex`). `parseHexChar` and `svfParseHex`, the loop that
  packs digits right to left into bytes. The loop is proved equal to a
  closed-form decoding, and several facts are proved about that decoding: it
  gives the number the literal denotes, an encoder inverts it, and odd-length
  literals behave as described below.
- **Parser** (`SvfSyntax`, `SvfParser`). `SvfSyntax` is the grammar of one
  command body. Each reader is a function of the text and a cursor that
  returns the value read and the new cursor, or the error the C++ throws.
  `SvfParser.Parser` is `svfParser` as a class. Its fields are `lineNum`,
  `pending` (the unread rest of the current line), `buf` and `bufI`, and its
  methods mutate them as the C++ does. Each method is proved to return what
  the matching `SvfSyntax` function computes.
- **Player** (`SvfCommands`, `SvfRouting`, `SvfMachine`, `SvfPlayer`).
  `SvfMachine` is `svfPlayer` as a function from a player state and a
  command to the new state. `SvfRouting` is the `goToState` walk over the
  path table. `SvfPlayer.Player` is `svfPlayer` as a class with the same
  fields. Its methods append to `outBuffer` and update the device state in
  loops, and each is proved to leave the object in the state `SvfMachine`
  computes. The predicate `Reflects` packs that comparison.

The properties proved include:

- routing:
  - `goToState` reaches every real state from every state but UNDEFINED;
    between real states it takes a shortest TMS sequence;
  - from UNKNOWN it first clocks six TMS=1 edges, which reset any device,
    and then a shortest sequence from RESET;
  - towards UNKNOWN or UNDEFINED it never stops, unless the device is
    already there;
- the records each command appends:
  - they drive a device, whose state the player either knows or knows to be
    unknown, into the state the player then believes it is in;
  - the one exception is a RUNTEST in a state that its TMS value does not
    hold;
- `padData` is idempotent, and the template merge rules hold;
- the parser assembles commands across lines without losing or duplicating
  text, and every command it returns is well formed.

Failures are values, not exceptions (`SvfCommands.Error`):

- `ParseError(line, desc)` is `runtime_error("line N: desc")`;
- `PlayError(desc)` is `runtime_error("error: desc")`;
- `LengthError` is the `std::length_error` of `string::assign` with a
  negative count;
- `UndefinedBehaviour(what)` marks the points where the C++ has undefined
  behaviour;
- `NonTerminating` marks the `goToState` calls that never return.

Where the behaviour differs from what a reader of the header's comments
might expect, the model follows the code:

- With an odd number of digits, `svfParseHex` puts the leftmost digit in the
  **low** nibble of the last byte, not the high one (`SvfHex.OddLiteralLastByte`).
- `svfPlayer::reset` sets only the three sticky states and the device state.
  It does not clear the six templates or `outBuffer` (`SvfMachine.ResetMachine`).
- An SDR or SIR with a length of 0 or less is an error, raised before any
  record is emitted.
- `_readCommand` joins the lines of a command with no separator of its own.
  A line handed over with its `'\n'` (as `getline` in the bundled player
  gives it) keeps its words apart from the next line's; a line handed over
  without any terminator runs into the next one, and a word split across two
  such lines is read as one word.
- A hex literal with a non-digit gives an empty field, not a parse error.
- TRST is checked when it is parsed, but the player ignores it.

## Model

| member | source | states |
|---|---|---|
| SvfTables.Ordinal | svf-player/libsvfplayer.h:20-31 | the enum value of a state indexes the state table at that state |
| SvfTables.StateTablesAgree | svf-player/libsvfplayer.h:20-31 | the name table and the enum line up entry by entry, and only entry 0 is UNDEFINED |
| SvfTables.FindName | svf-player/libsvfplayer.h:102-109 | the linear scan stops at the first entry equal to the word, with no earlier match, or runs off the end |
| SvfTables.LookupState | svf-player/libsvfplayer.h:102-109 | a state is returned exactly when its name equals the word, case-sensitively; UNDEFINED exactly when no real state has that name |
| SvfTables.OpOrdinal | svf-player/libsvfplayer.h:96-101 | the enum value of a verb indexes the verb table at that verb |
| SvfTables.OpTablesAgree | svf-player/libsvfplayer.h:96-101 | the verb names and the enum line up, and only entry 0 is UNDEFINED |
| SvfTables.LookupOp | svf-player/libsvfplayer.h:110-117 | a verb is returned exactly when its name equals the word; UNDEFINED when no verb has that name |
| SvfTables.TapDiagram | svf-player/libsvfplayer.h:74-94 | the IEEE 1149.1 state diagram, the reference for the table; a real state always steps to a real state |
| SvfTables.TransitionTableIsTapDiagram | svf-player/libsvfplayer.h:74-94 | entry `state*2+tms` of the transition table is the diagram's successor, for every state and TMS value; UNDEFINED and UNKNOWN map to themselves |
| SvfTables.Next | svf-player/libsvfplayer.h:531-533 | calculateTransition: the transition table keeps a real state real, and leaves UNDEFINED and UNKNOWN where they are |
| SvfTables.PathRow | svf-player/libsvfplayer.h:49-73 | the path table row of a state; only the RESET row holds the wildcard, and UNDEFINED and UNKNOWN have empty rows |
| SvfTables.RouteBit | svf-player/libsvfplayer.h:517-527 | the TMS value goToState clocks from s towards t: 0 when the row holds the wildcard or t, 1 otherwise (EdgeCloser proves it brings the device one edge closer) |
| SvfTables.TableOnLow | svf-player/libsvfplayer.h:74-94 | the TMS=0 column of the transition table is the diagram's TMS=0 successor |
| SvfTables.TableOnHigh | svf-player/libsvfplayer.h:74-94 | the TMS=1 column of the transition table is the diagram's TMS=1 successor |
| SvfTables.LowColumnHead | svf-player/libsvfplayer.h:76-84 | the TMS=0 entries up to DRPAUSE agree with the diagram |
| SvfTables.LowColumnTail | svf-player/libsvfplayer.h:85-93 | the TMS=0 entries from DREXIT2 on agree with the diagram |
| SvfTables.HighColumnHead | svf-player/libsvfplayer.h:76-84 | the TMS=1 entries up to DRPAUSE agree with the diagram |
| SvfTables.HighColumnTail | svf-player/libsvfplayer.h:85-93 | the TMS=1 entries from DREXIT2 on agree with the diagram |
| SvfTables.ReplayStep | svf-player/libsvfplayer.h:531-533 | clocking a sequence is one table step, then the rest of the sequence |
| SvfTables.ReplayConcat | svf-player/libsvfplayer.h:531-533 | clocking two sequences one after the other is clocking their concatenation |
| SvfTables.FiveOnesReset | svf-player/libsvfplayer.h:511-515 | five, and so six, TMS=1 edges bring every real state to RESET; this is why the escape from UNKNOWN is safe |
| SvfTables.FiveEdgesReset | svf-player/libsvfplayer.h:74-94 | five TMS=1 table steps from any real state end in RESET |
| SvfTables.FiveEdgesFromDr | svf-player/libsvfplayer.h:78-86 | FiveEdgesReset for RESET, IDLE and the DR column |
| SvfTables.FiveEdgesFromIr | svf-player/libsvfplayer.h:87-93 | FiveEdgesReset for the IR column |
| SvfHex.ParseHexChar | svf-player/libsvfplayer.h:118-124 | a hex digit of either case maps to its value below 16; any other character maps to 255 |
| SvfHex.DecodeHex | svf-player/libsvfplayer.h:126-140 | a literal with a non-digit decodes to nothing; a literal of n digits decodes to ceil(n/2) bytes |
| SvfHex.ParseHex | svf-player/libsvfplayer.h:126-140 | the right-to-left loop that appends a byte or patches the last byte's high nibble returns exactly the closed-form decoding: nothing when a character is not a hex digit, and otherwise ceil(n/2) bytes, byte k holding digit n-1-2k in its low nibble and digit n-2-2k, when there is one, in its high nibble |
| SvfHex.DecodeStep | svf-player/libsvfplayer.h:129-138 | one step of the loop: a digit added on the left starts a new last byte, or fills the high nibble of a last byte that held only a low nibble |
| SvfHex.DecodeStepEven | svf-player/libsvfplayer.h:134-136 | after an even number of digits, the next digit is appended as a byte of its own |
| SvfHex.DecodeStepOdd | svf-player/libsvfplayer.h:132-133 | after an odd number of digits, the next digit is or-ed into the high nibble of the last byte, which held less than 16 |
| SvfHex.PackedByteHigh | svf-player/libsvfplayer.h:132-133 | the byte completed by the leftmost of an even number of digits has it as high nibble and the next digit as low nibble |
| SvfHex.OddLiteralLastByte | svf-player/libsvfplayer.h:134-135 | with an odd count, the last byte is the leftmost digit alone, in the low nibble |
| SvfHex.OneBadDigit | svf-player/libsvfplayer.h:131 | one non-digit anywhere makes the whole result empty |
| SvfHex.DecodeDropLast2 | svf-player/libsvfplayer.h:126-140 | the first byte is the two rightmost digits; the remaining bytes are the decoding of the literal without them |
| SvfHex.DecodeHexValue | svf-player/libsvfplayer.h:126-140 | the bytes, least significant first, denote the number the literal denotes in hex |
| SvfHex.EncodeHex | svf-player/libsvfplayer.h:126-140 | the inverse: a literal of hex digits, two per byte |
| SvfHex.DecodeEncode | svf-player/libsvfplayer.h:126-140 | decoding the literal written for any byte string gives the byte string back |
| SvfHex.EncodeFirstByte | svf-player/libsvfplayer.h:126-140 | the last two digits written spell the first byte; the rest is the literal for the other bytes |
| SvfSyntax.IsSpace | svf-player/libsvfplayer.h:308 | `isspace` in the C locale: space, tab, newline, vertical tab, form feed and carriage return (a helper of the SkipSpaces and WordEnd rows) |
| SvfSyntax.SkipSpaces | svf-player/libsvfplayer.h:307-309 | the cursor moves forward, and stops at the end or at a character that is not white space |
| SvfSyntax.SkipSpacesSkipsSpaces | svf-player/libsvfplayer.h:307-309 | every character skipped is white space |
| SvfSyntax.WordEnd | svf-player/libsvfplayer.h:313 | the scan stops at the end or at white space |
| SvfSyntax.WordEndSkipsWord | svf-player/libsvfplayer.h:313 | every character of the word is not white space |
| SvfSyntax.ReadWord | svf-player/libsvfplayer.h:310-317 | the cursor moves forward; an empty word leaves it at the end of the text |
| SvfSyntax.ReadWordShape | svf-player/libsvfplayer.h:310-317 | the word is the maximal run of non-space characters after the skipped spaces; it is empty exactly when only spaces are left |
| SvfSyntax.SkipSpacesIdempotent | svf-player/libsvfplayer.h:307-317 | skipping spaces twice is skipping once, so a peeked word and a read word agree |
| SvfSyntax.CStr | svf-player/libsvfplayer.h:189 | `c_str()` as `strcmp` sees it: the word up to its first NUL |
| SvfSyntax.DigitRun | svf-player/libsvfplayer.h:337 | the maximal run of leading decimal digits |
| SvfSyntax.StrToL | svf-player/libsvfplayer.h:335-338 | strtol reads a number exactly when a decimal digit follows the optional sign, and the number is negative only after a minus sign |
| SvfSyntax.StrToDAccepts | svf-player/libsvfplayer.h:343-347 | strtod reads something from every word strtol reads a number from |
| SvfSyntax.Expect | svf-player/libsvfplayer.h:351-354 | succeeds exactly when the next word is the keyword; the error names the keyword and the line |
| SvfSyntax.ExpectEither | svf-player/libsvfplayer.h:355-359 | succeeds exactly when the next word is one of the two keywords |
| SvfSyntax.ExpectChar | svf-player/libsvfplayer.h:360-364 | succeeds exactly when the first non-space character is the one expected, and steps past it |
| SvfSyntax.ReadInt | svf-player/libsvfplayer.h:332-341 | fails exactly when the word has no optional-sign-and-digits prefix or its value is outside int; otherwise returns that value |
| SvfSyntax.ReadDouble | svf-player/libsvfplayer.h:342-350 | succeeds exactly when strtod would accept a prefix of the word |
| SvfSyntax.GatherHex | svf-player/libsvfplayer.h:320-325 | the words joined only extend the first; without a closing ')' the text is used up |
| SvfSyntax.HexText | svf-player/libsvfplayer.h:320-325 | the gathered text starts with the first word, and is empty only when that word is |
| SvfSyntax.ReadHexValue | svf-player/libsvfplayer.h:318-331 | without '(' after the white space the error is `expecting: (`; with it, the value is read as HexBody reads it after the '(' |
| SvfSyntax.HexBody | svf-player/libsvfplayer.h:320-330 | the bytes are DecodeHex of the gathered text without its closing ')'; gathered text that does not end in ')' is always the parse error `expecting: )`; an empty first word is the undefined read of `s[-1]` |
| SvfSyntax.ParseStates | svf-player/libsvfplayer.h:221-228 | the STATE list runs to the end of the text and holds no UNDEFINED; every failure is a parse error on the line |
| SvfSyntax.Words | svf-player/libsvfplayer.h:223 | the words from the cursor to the end of the text, each of them non-empty |
| SvfSyntax.StatesOf | svf-player/libsvfplayer.h:224 | the state svfLookupState gives for each word, in order |
| SvfSyntax.ParseStatesAccepts | svf-player/libsvfplayer.h:223-228 | the STATE list is accepted exactly when every word names a state |
| SvfSyntax.ParseStatesInOrder | svf-player/libsvfplayer.h:223-228 | an accepted list is the state of each word, in order and with nothing skipped |
| SvfSyntax.ParseStatesReports | svf-player/libsvfplayer.h:223-228 | a rejected list is reported as `unknown state: ` followed by the first word that names no state |
| SvfSyntax.FirstUnknownShifts | svf-player/libsvfplayer.h:223-227 | behind a known state, the first unknown word is one place further on |
| SvfSyntax.ParseAttributes | svf-player/libsvfplayer.h:243-256 | the attributes run to the end of the text and keep the length; a word other than TDI, TDO, MASK and SMASK is the error `unknown attribute: ` with that word; a keyword whose hex value fails passes that failure on |
| SvfSyntax.ParseAttributesFields | svf-player/libsvfplayer.h:244-255 | TDI sets tdiData, TDO tdoData, SMASK tdiMask and MASK tdoMask; each field ends as the value of the last attribute with its own keyword, or as it was when there is none |
| SvfSyntax.ParseEndState | svf-player/libsvfplayer.h:194-203 | ENDDR/ENDIR fail exactly when the word names no state, with "unknown state: word"; otherwise the command holds that state |
| SvfSyntax.ParseFrequency | svf-player/libsvfplayer.h:204-207 | FREQUENCY succeeds exactly when strtod accepts the first word and the next word is HZ; otherwise the error is `expected number` or `expecting: HZ`, in that order |
| SvfSyntax.ParseRunTest | svf-player/libsvfplayer.h:208-218 | RUNTEST holds the state the first word names, or UNDEFINED; the count is in int range |
| SvfSyntax.ParseRunTestCount | svf-player/libsvfplayer.h:208-217 | the count is read after the first word only when that word names a state, and in its place otherwise; its error is passed on; after it, RUNTEST succeeds exactly when TCK follows, and otherwise fails with `expecting: TCK` |
| SvfSyntax.ParseStateCommand | svf-player/libsvfplayer.h:219-230 | STATE succeeds exactly when every word names a state, lists the states of the words in order, and otherwise reports the first unknown word |
| SvfSyntax.ParseShift | svf-player/libsvfplayer.h:231-256 | SDR/SIR/HDR/HIR/TDR/TIR: the length is the int of the first word (its error passed on), and the data and errors are those of the attribute loop started on empty fields with that length |
| SvfSyntax.ParseTrst | svf-player/libsvfplayer.h:264-266 | TRST succeeds exactly when OFF or ABSENT follows, with the source's message otherwise |
| SvfSyntax.ParseOperands | svf-player/libsvfplayer.h:190-270 | the verb switch keeps the verb, and its every failure is raised on the line being read |
| SvfSyntax.ParseOperandsWellFormed | svf-player/libsvfplayer.h:190-270 | every command the switch returns is well formed |
| SvfSyntax.ParseBody | svf-player/libsvfplayer.h:187-277 | a command body parses into a well-formed command or fails on the line being read |
| SvfSyntax.ParseBodyAccepts | svf-player/libsvfplayer.h:268-277 | an operand error is passed on; operands followed only by white space give that command; anything else after them gives `garbage after command: ` and the rest of the text from its first non-space character |
| SvfSyntax.UnknownVerbRejected | svf-player/libsvfplayer.h:191-193 | a verb that names no command fails with "unknown svf command: verb" |
| SvfSyntax.EmptyCommandRejected | svf-player/libsvfplayer.h:188-193 | an empty or all-blank command fails as an unknown command |
| SvfSyntax.ParseBodyConsumesAll | svf-player/libsvfplayer.h:271-275 | a command that parses leaves only white space after its operands |
| SvfParser.FindChar | svf-player/libsvfplayer.h:279-283 | the first index of the character, or -1 exactly when it does not occur |
| SvfParser.IsCommentLine | svf-player/libsvfplayer.h:180 | a line of at least two characters starting with `//` is a comment; Parser.ProcessLine only counts such a line |
| SvfParser.SplitCommand | svf-player/libsvfplayer.h:286-301 | with no ';' pending, all pending text joins buf and no command is complete; otherwise exactly the text before the first ';' joins buf and the rest after it stays pending; nothing is lost or duplicated |
| SvfParser.NextCommandSpec | svf-player/libsvfplayer.h:184-278 | with no ';' pending, no command: all pending text joins buf; otherwise the text up to the first ';' is parsed, the rest stays pending, buf is cleared when the parse succeeds and keeps the command text when it fails, and the result is that of the parse |
| SvfParser.PrefixedAppend | svf-player/libsvfplayer.h:219-230 | putting states in front of the STATE list one at a time or all at once gives the same list |
| SvfParser.Parser.constructor | svf-player/libsvfplayer.h:167-171 | lineNum is 0, no line is pending and buf is empty |
| SvfParser.Parser.Reset | svf-player/libsvfplayer.h:172-177 | lineNum is 0, no line is pending, buf is cleared |
| SvfParser.Parser.ProcessLine | svf-player/libsvfplayer.h:178-183 | lineNum goes up by one; a line starting with `//` changes nothing else, any other line becomes the pending text |
| SvfParser.Parser.ReadCommand | svf-player/libsvfplayer.h:286-301 | pending and buf change as SplitCommand says |
| SvfParser.Parser.BeginRead | svf-player/libsvfplayer.h:304-306 | the cursor is at the start |
| SvfParser.Parser.SkipSpaces | svf-player/libsvfplayer.h:307-309 | the loop moves the cursor as SvfSyntax.SkipSpaces does |
| SvfParser.Parser.ReadWord | svf-player/libsvfplayer.h:310-317 | returns SvfSyntax.ReadWord's word; the cursor moves past it, or only past the spaces when peeking |
| SvfParser.Parser.ExpectChar | svf-player/libsvfplayer.h:360-364 | result and cursor are those of SvfSyntax.ExpectChar |
| SvfParser.Parser.Expect | svf-player/libsvfplayer.h:351-354 | result and cursor are those of SvfSyntax.Expect |
| SvfParser.Parser.ExpectEither | svf-player/libsvfplayer.h:355-359 | result and cursor are those of SvfSyntax.ExpectEither |
| SvfParser.Parser.ReadInt | svf-player/libsvfplayer.h:332-341 | value, error and cursor are those of SvfSyntax.ReadInt |
| SvfParser.Parser.ReadDouble | svf-player/libsvfplayer.h:342-350 | success, error and cursor are those of SvfSyntax.ReadDouble |
| SvfParser.Parser.ReadHexValue | svf-player/libsvfplayer.h:318-331 | result and cursor are those of SvfSyntax.ReadHexValue |
| SvfParser.Parser.ReadHexBody | svf-player/libsvfplayer.h:320-330 | result and cursor are those of SvfSyntax.HexBody |
| SvfParser.Parser.GatherHex | svf-player/libsvfplayer.h:320-325 | the loop gathers the text and moves the cursor as SvfSyntax.GatherHex does |
| SvfParser.Parser.ReadStates | svf-player/libsvfplayer.h:221-228 | the loop's list, error and cursor are those of SvfSyntax.ParseStates |
| SvfParser.Parser.ReadAttributes | svf-player/libsvfplayer.h:243-256 | the loop's data, error and cursor are those of SvfSyntax.ParseAttributes |
| SvfParser.Parser.ReadEndState | svf-player/libsvfplayer.h:194-203 | result and cursor are those of SvfSyntax.ParseEndState |
| SvfParser.Parser.ReadFrequency | svf-player/libsvfplayer.h:204-207 | result and cursor are those of SvfSyntax.ParseFrequency |
| SvfParser.Parser.ReadRunTest | svf-player/libsvfplayer.h:208-218 | result and cursor are those of SvfSyntax.ParseRunTest |
| SvfParser.Parser.ReadStateCommand | svf-player/libsvfplayer.h:219-230 | result and cursor are those of SvfSyntax.ParseStateCommand |
| SvfParser.Parser.ReadShift | svf-player/libsvfplayer.h:231-263 | result and cursor are those of SvfSyntax.ParseShift |
| SvfParser.Parser.ReadTrst | svf-player/libsvfplayer.h:264-266 | result and cursor are those of SvfSyntax.ParseTrst |
| SvfParser.Parser.ReadListOrScan | svf-player/libsvfplayer.h:219-266 | the STATE, shift and TRST arms of the switch agree with SvfSyntax.ParseOperands |
| SvfParser.Parser.ReadOperands | svf-player/libsvfplayer.h:190-270 | the whole switch agrees with SvfSyntax.ParseOperands |
| SvfParser.Parser.NextCommand | svf-player/libsvfplayer.h:184-278 | the result, the pending text and buf are those of NextCommandSpec |
| SvfMachine.Assign | svf-player/libsvfplayer.h:482-488 | `string::assign(count, v)`: count copies of v, and an error exactly when the count is negative |
| SvfMachine.CDiv | svf-player/libsvfplayer.h:480 | C's `/` on int, rounding towards zero for a negative dividend (a helper of the Pad row) |
| SvfMachine.Pad | svf-player/libsvfplayer.h:478-489 | when padData fails, with every case listed; padding keeps the length and TDI, fills every field when the length is positive, and leaves untouched a template that needs nothing |
| SvfMachine.PadFillsMissing | svf-player/libsvfplayer.h:481-488 | an empty TDI mask becomes all 0xFF; an empty TDO becomes all 0 with an all-0 mask; an empty TDO mask after a TDO becomes all 0xFF; given fields are kept |
| SvfMachine.PadErrors | svf-player/libsvfplayer.h:480-482 | which error: overflow of dataLen+7, then "TDI data required", then a negative assign count |
| SvfMachine.PadIdempotent | svf-player/libsvfplayer.h:478-489 | padding a padded template changes nothing |
| SvfMachine.MergeTemplate | svf-player/libsvfplayer.h:413-425 | a new length replaces and pads the template; the same length always succeeds |
| SvfMachine.MergeTemplateKeeps | svf-player/libsvfplayer.h:416-425 | at the same length, each of TDI, TDO, SMASK and MASK is the incoming value when that is non-empty and the template's own otherwise; nothing is padded |
| SvfMachine.MergeDefault | svf-player/libsvfplayer.h:445-457 | the result has the scan's length and is padded; a new length replaces the default template with the padded incoming data |
| SvfMachine.MergeDefaultKeeps | svf-player/libsvfplayer.h:448-456 | at the same length, a non-empty TDI or mask replaces the kept one and an empty one keeps it; a non-empty TDO is the command's own; the old TDO is never kept |
| SvfMachine.ScanWithoutTdoComparesNothing | svf-player/libsvfplayer.h:449-456 | a scan without TDO always overwrites TDO with empty, so after padding nothing is compared |
| SvfMachine.Record | svf-player/libsvfplayer.h:499 | the record byte, with TMS, TDI, TDO, TDI enable and TDO enable in bits 0 to 4, written as a sum of weighted bits (RecordFields reads them back) |
| SvfMachine.RecordFields | svf-player/libsvfplayer.h:499 | the record byte is below 32, and each of its five bit fields reads back as given |
| SvfMachine.Times | svf-player/libsvfplayer.h:491 | the number of passes of a `for(i=0;i<n;i++)` loop: n, or none when n is negative (a helper of the ShiftRecords and HoldRun rows) |
| SvfMachine.ShiftRecords | svf-player/libsvfplayer.h:490-501 | one record per bit, max(dataLen, 0) records in all |
| SvfMachine.BitAt | svf-player/libsvfplayer.h:493-498 | bit i%8 of byte i/8, read through the `&mask` test (ShiftRecordFields states it per record) |
| SvfMachine.ShiftRecordFields | svf-player/libsvfplayer.h:493-499 | record i keeps TMS low and carries bit i of TDI, TDO and both masks |
| SvfMachine.Shift | svf-player/libsvfplayer.h:490-501 | succeeds exactly when every field reaches byte (dataLen-1)/8, and then gives ShiftRecords |
| SvfMachine.PaddedCovers | svf-player/libsvfplayer.h:478-501 | after padding, a shift reads inside the fields exactly when TDI and the given fields are long enough |
| SvfMachine.Covers | svf-player/libsvfplayer.h:490-501 | doShift reads byte (dataLen-1)/8 of each of the four strings at most, which must lie within the string or be its terminator |
| SvfMachine.SetLastTms | svf-player/libsvfplayer.h:463 | the last record gets TMS 1 and every earlier record is unchanged |
| SvfMachine.SetLastTmsKeepsFields | svf-player/libsvfplayer.h:463 | setting TMS leaves the other four fields of the last record as they were |
| SvfMachine.SetLastTmsAfter | svf-player/libsvfplayer.h:463 | raising TMS on the last record does not touch what came before |
| SvfMachine.TmsRecords | svf-player/libsvfplayer.h:535-537 | one record per TMS value |
| SvfMachine.TmsOfRecords | svf-player/libsvfplayer.h:535-537 | the TMS bits of doTransition's records are the TMS values given |
| SvfMachine.ResetMachine | svf-player/libsvfplayer.h:389-392 | the end and run-test states become IDLE and the device state UNKNOWN; the six templates and outBuffer are kept |
| SvfMachine.GoTo | svf-player/libsvfplayer.h:508-529 | on return the device is in the target and only the device state and the output change; the only failure is non-termination |
| SvfMachine.GoToHalts | svf-player/libsvfplayer.h:508-529 | goToState returns exactly when the device is already at the target, or the target is a real state and the device state is not UNDEFINED; it then appends the route's records |
| SvfMachine.ResetThenGoTo | svf-player/libsvfplayer.h:508-516 | after reset, going to any real state succeeds and emits the six-edge escape, then the route from RESET |
| SvfMachine.GoToAll | svf-player/libsvfplayer.h:468-472 | the STATE loop ends in the last state listed; an empty list changes nothing |
| SvfMachine.GoToAllFrame | svf-player/libsvfplayer.h:468-472 | STATE changes only the device state and the output |
| SvfMachine.HoldRun | svf-player/libsvfplayer.h:504-506 | exactly count TMS values |
| SvfMachine.HoldingStates | svf-player/libsvfplayer.h:504 | the TMS value doRunTest holds keeps the device in place exactly in RESET, IDLE, DRSHIFT, DRPAUSE, IRSHIFT and IRPAUSE |
| SvfMachine.HoldRunConcat | svf-player/libsvfplayer.h:505-506 | i held edges, then j more, are i+j held edges |
| SvfMachine.RunTestFrom | svf-player/libsvfplayer.h:502-507 | doRunTest leaves the device state at the run state and changes only it and the output (RunTestRecords states the records) |
| SvfMachine.RunTestRecords | svf-player/libsvfplayer.h:502-507 | doRunTest returns exactly when goToState does, and then appends the route to the run state followed by count records holding TMS at 1 in RESET and 0 elsewhere (none for a negative count) |
| SvfMachine.ProcessRunTest | svf-player/libsvfplayer.h:428-436 | an explicit state becomes the new sticky run state and the device state; UNDEFINED reuses the stored one; an empty state list is undefined behaviour |
| SvfMachine.RunTestInUnstableState | svf-player/libsvfplayer.h:502-507 | RUNTEST DREXIT1 1 TCK believes the device stays in DREXIT1, but the TMS=0 edge it clocks moves it to DRPAUSE |
| SvfMachine.SetTemplate | svf-player/libsvfplayer.h:404-427 | HDR/HIR/TDR/TIR change exactly their own template, by the merge rule |
| SvfMachine.WithTemplate | svf-player/libsvfplayer.h:409-412 | the template the verb selects afterwards holds the data given; the other three templates and all other fields are unchanged |
| SvfMachine.Scan | svf-player/libsvfplayer.h:437-467 | a length of 0 or less is an error; on success the device is in the end state, the default template of the scanned register is the merged data, and the sticky states, headers, trailers and the other default are kept |
| SvfMachine.ScanRecords | svf-player/libsvfplayer.h:459-465 | the records of a scan are the route to the shift state, then header, merged default and trailer with TMS raised on the last record, then the route from the exit state to the end state |
| SvfMachine.ShiftThrough | svf-player/libsvfplayer.h:460-464 | the middle of SDR/SIR succeeds exactly when all three registers read within bounds, and then takes one TMS=1 step |
| SvfMachine.ScanKeepsTmsLow | svf-player/libsvfplayer.h:460-462 | header, body and trailer records keep TMS low, which holds a shift state |
| SvfMachine.ShiftKeepsTmsLow | svf-player/libsvfplayer.h:490-501 | doShift's records keep TMS low |
| SvfMachine.LastRaised | svf-player/libsvfplayer.h:463-464 | raising TMS on the last shift record takes the device from SHIFT to EXIT1, as calculateTransition(1) assumes |
| SvfMachine.ShiftThroughTracks | svf-player/libsvfplayer.h:460-464 | the records appended take the device from SHIFT to EXIT1 |
| SvfMachine.ScanTracks | svf-player/libsvfplayer.h:437-467 | the records of an SDR/SIR drive the device into the state the player then believes |
| SvfMachine.GoToTracks | svf-player/libsvfplayer.h:508-529 | goToState's records drive the device into the target |
| SvfMachine.GoToAllTracks | svf-player/libsvfplayer.h:468-472 | STATE's records drive the device into the last state listed |
| SvfMachine.RunTestTracks | svf-player/libsvfplayer.h:502-507 | RUNTEST's records drive the device into the run state, when the held TMS keeps it there |
| SvfMachine.HoldKeeps | svf-player/libsvfplayer.h:504-506 | in a state the held TMS keeps, the clocked edges leave the device where it is |
| SvfMachine.Process | svf-player/libsvfplayer.h:393-477 | FREQUENCY, TRST and unknown commands change nothing; ENDDR and ENDIR set only their end state, and an empty state list is undefined behaviour; a header or trailer command changes only its template, to the merge; SDR and SIR are Scan; after RUNTEST the device is in the run state, after STATE in the last listed state |
| SvfMachine.ProcessTracksDevice | svf-player/libsvfplayer.h:393-477 | processCommand only appends to the output, and what it appends drives the device into the state the player then believes |
| SvfMachine.ProcessAll | svf-player/libsvfplayer.h:393-477 | processCommand over a list of commands; an empty list changes nothing |
| SvfMachine.ProcessAllTracksDevice | svf-player/libsvfplayer.h:393-477 | over any run of commands, the output only grows and keeps the device's real state in step with the player's belief |
| SvfMachine.FreshValid | svf-player/libsvfplayer.h:389-392 | a reset player holds no UNDEFINED state |
| SvfMachine.GoToAllValid | svf-player/libsvfplayer.h:468-472 | a STATE list without UNDEFINED leaves no UNDEFINED state |
| SvfMachine.ProcessPreservesValid | svf-player/libsvfplayer.h:393-477 | a well-formed command never brings an UNDEFINED state into the player |
| SvfMachine.Valid | svf-player/libsvfplayer.h:389-477 | no state the player holds is UNDEFINED (FreshValid and ProcessPreservesValid prove it is kept) |
| SvfRouting.Pass | svf-player/libsvfplayer.h:510-528 | one pass of the goToState loop: RESET after the escape from UNKNOWN, otherwise the table edge; it leads to a real state from every state but UNDEFINED, which stays put |
| SvfRouting.Walk | svf-player/libsvfplayer.h:508-529 | the goToState loop, one pass of the can-we-stop test and one clocked edge at a time, with a bound on its passes (WalkShape, WalkSettles and WalkByDist state its contract) |
| SvfRouting.WalkShape | svf-player/libsvfplayer.h:508-529 | a walk emits nothing exactly when it starts at the target or has no fuel; one that stops short has clocked an edge per unit of fuel; from UNDEFINED it never moves |
| SvfRouting.Route | svf-player/libsvfplayer.h:508-529 | the TMS values goToState emits from s to t: the walk with enough passes for every pair for which it returns (RouteEmpty, RouteDrivesDevice and RouteIsShortest state its contract) |
| SvfRouting.RouteEmpty | svf-player/libsvfplayer.h:510 | goToState clocks nothing exactly when the device is already in the target state |
| SvfRouting.Routable | svf-player/libsvfplayer.h:508-529 | the pairs for which goToState returns: the target is the current state, or a real state and the current state is not UNDEFINED (GoToHalts proves this) |
| SvfRouting.Dist | svf-player/libsvfplayer.h:49-94 | the number of edges goToState takes, bounded by the fuel |
| SvfRouting.DistCertified | svf-player/libsvfplayer.h:49-94 | the distance is 0 only at the target; the path table's bit lowers it by one; no edge lowers it by more |
| SvfRouting.CertifiedFromReset | svf-player/libsvfplayer.h:52 | from RESET, the distance is 0 only at the target, the path table's bit for that row lowers it by one, and no edge lowers it by more |
| SvfRouting.CertifiedFromIdle | svf-player/libsvfplayer.h:53 | from IDLE, the distance is 0 only at the target, the path table's bit for that row lowers it by one, and no edge lowers it by more |
| SvfRouting.CertifiedFromDrSelect | svf-player/libsvfplayer.h:54 | from DRSELECT, the distance is 0 only at the target, the path table's bit for that row lowers it by one, and no edge lowers it by more |
| SvfRouting.CertifiedFromDrCapture | svf-player/libsvfplayer.h:55 | from DRCAPTURE, the distance is 0 only at the target, the path table's bit for that row lowers it by one, and no edge lowers it by more |
| SvfRouting.CertifiedFromDrShift | svf-player/libsvfplayer.h:56 | from DRSHIFT, the distance is 0 only at the target, the path table's bit for that row lowers it by one, and no edge lowers it by more |
| SvfRouting.CertifiedFromDrExit1 | svf-player/libsvfplayer.h:57-58 | from DREXIT1, the distance is 0 only at the target, the path table's bit for that row lowers it by one, and no edge lowers it by more |
| SvfRouting.CertifiedFromDrPause | svf-player/libsvfplayer.h:59 | from DRPAUSE, the distance is 0 only at the target, the path table's bit for that row lowers it by one, and no edge lowers it by more |
| SvfRouting.CertifiedFromDrExit2 | svf-player/libsvfplayer.h:60-61 | from DREXIT2, the distance is 0 only at the target, the path table's bit for that row lowers it by one, and no edge lowers it by more |
| SvfRouting.CertifiedFromDrUpdate | svf-player/libsvfplayer.h:62 | from DRUPDATE, the distance is 0 only at the target, the path table's bit for that row lowers it by one, and no edge lowers it by more |
| SvfRouting.CertifiedFromIrSelect | svf-player/libsvfplayer.h:64 | from IRSELECT, the distance is 0 only at the target, the path table's bit for that row lowers it by one, and no edge lowers it by more |
| SvfRouting.CertifiedFromIrCapture | svf-player/libsvfplayer.h:65 | from IRCAPTURE, the distance is 0 only at the target, the path table's bit for that row lowers it by one, and no edge lowers it by more |
| SvfRouting.CertifiedFromIrShift | svf-player/libsvfplayer.h:66 | from IRSHIFT, the distance is 0 only at the target, the path table's bit for that row lowers it by one, and no edge lowers it by more |
| SvfRouting.CertifiedFromIrExit1 | svf-player/libsvfplayer.h:67-68 | from IREXIT1, the distance is 0 only at the target, the path table's bit for that row lowers it by one, and no edge lowers it by more |
| SvfRouting.CertifiedFromIrPause | svf-player/libsvfplayer.h:69 | from IRPAUSE, the distance is 0 only at the target, the path table's bit for that row lowers it by one, and no edge lowers it by more |
| SvfRouting.CertifiedFromIrExit2 | svf-player/libsvfplayer.h:70-71 | from IREXIT2, the distance is 0 only at the target, the path table's bit for that row lowers it by one, and no edge lowers it by more |
| SvfRouting.CertifiedFromIrUpdate | svf-player/libsvfplayer.h:72 | from IRUPDATE, the distance is 0 only at the target, the path table's bit for that row lowers it by one, and no edge lowers it by more |
| SvfRouting.DistToSelf | svf-player/libsvfplayer.h:510 | a state is no edges away from itself |
| SvfRouting.RouteStep | svf-player/libsvfplayer.h:517-528 | from a real state other than the target, the path table's bit leads to a real state one edge closer |
| SvfRouting.WalkByDist | svf-player/libsvfplayer.h:508-529 | with enough fuel the walk between real states arrives, in exactly Dist edges, and the table steps follow it |
| SvfRouting.DistLowerBound | svf-player/libsvfplayer.h:49-94 | any TMS sequence that drives s to t has at least Dist(s, t) edges |
| SvfRouting.RouteArrives | svf-player/libsvfplayer.h:508-529 | for a routable pair, the walk ends at the target |
| SvfRouting.NeverArrives | svf-player/libsvfplayer.h:508-529 | for any other pair, no amount of fuel reaches the target: the C++ loop never ends |
| SvfRouting.WalkUnfold | svf-player/libsvfplayer.h:510-528 | one pass of the loop, then the rest of the walk |
| SvfRouting.PassKeepsUnroutable | svf-player/libsvfplayer.h:511-528 | a pass of the loop never makes an unreachable target reachable |
| SvfRouting.RouteToSelf | svf-player/libsvfplayer.h:510 | going to the current state emits nothing |
| SvfRouting.RoutePeel | svf-player/libsvfplayer.h:510-528 | the route from UNKNOWN starts with the six-edge escape to RESET; any other route starts with the path table's bit; either way the rest of the walk is shorter |
| SvfRouting.PeelEscape | svf-player/libsvfplayer.h:511-516 | the escape from UNKNOWN, then the route from RESET |
| SvfRouting.PeelEdge | svf-player/libsvfplayer.h:517-528 | from a state other than UNKNOWN, the table's bit, then the route from its successor |
| SvfRouting.EdgeRoute | svf-player/libsvfplayer.h:517-528 | between real states, the route is the table's bit followed by the route from the next state |
| SvfRouting.EdgeCloser | svf-player/libsvfplayer.h:517-528 | the table's bit brings the device strictly closer to the target |
| SvfRouting.WalkFuelIrrelevant | svf-player/libsvfplayer.h:508-529 | any fuel at least Dist gives the same walk |
| SvfRouting.WalkSettles | svf-player/libsvfplayer.h:508-529 | once a walk arrives, more fuel changes nothing |
| SvfRouting.WalkAfterPass | svf-player/libsvfplayer.h:510-528 | two walks that agree after the first pass agree |
| SvfRouting.WalkFromUnknown | svf-player/libsvfplayer.h:511-516 | from UNKNOWN the walk first clocks six TMS=1 edges |
| SvfRouting.RouteFromUnknown | svf-player/libsvfplayer.h:511-516 | the route from UNKNOWN is the escape, then the route from RESET |
| SvfRouting.RouteDrivesDevice | svf-player/libsvfplayer.h:508-533 | between real states the route drives the device to the target, in Dist edges |
| SvfRouting.RouteIsShortest | svf-player/libsvfplayer.h:49-94 | no TMS sequence reaches the target in fewer edges than the route |
| SvfRouting.EscapeFromAnyState | svf-player/libsvfplayer.h:511-516 | whatever real state the device is in, the route from UNKNOWN brings it to the target |
| SvfPlayer.Player.constructor | svf-player/libsvfplayer.h:377-392 | a player with empty templates and buffer, after reset |
| SvfPlayer.Player.Reset | svf-player/libsvfplayer.h:389-392 | the fields change as ResetMachine says, and no others |
| SvfPlayer.Player.DoTransition | svf-player/libsvfplayer.h:535-537 | one record with the TMS value and all other fields zero is appended |
| SvfPlayer.Player.CalculateTransition | svf-player/libsvfplayer.h:531-533 | the device state becomes the table entry, which is the diagram's successor |
| SvfPlayer.Player.PathBit | svf-player/libsvfplayer.h:517-528 | the row scan gives TMS 0 exactly when the row holds UNDEFINED or the target |
| SvfPlayer.Player.GoToState | svf-player/libsvfplayer.h:508-529 | the goto loop leaves the player as GoTo says; it reports non-termination, with the player untouched, instead of looping |
| SvfPlayer.Player.GoToPass | svf-player/libsvfplayer.h:510-528 | one pass appends the front of the route and leaves a strictly shorter route to go |
| SvfPlayer.Player.EscapeUnknown | svf-player/libsvfplayer.h:511-516 | from UNKNOWN six TMS=1 records are appended and the device state is RESET |
| SvfPlayer.Player.TakeEdge | svf-player/libsvfplayer.h:517-528 | the path table's bit is appended once and the device takes that edge |
| SvfPlayer.Player.DoShift | svf-player/libsvfplayer.h:490-501 | the loop appends ShiftRecords, or reports the read past a field's end with the buffer unchanged |
| SvfPlayer.Player.ShiftRegisters | svf-player/libsvfplayer.h:460-462 | header, body and trailer records are appended in order, or the out-of-bounds read is reported |
| SvfPlayer.Player.ShiftThroughRegister | svf-player/libsvfplayer.h:460-464 | the three shifts, the raised TMS and the step to EXIT1 leave the player as ShiftThrough says |
| SvfPlayer.ShiftThroughOutcome | svf-player/libsvfplayer.h:460-464 | the two outcomes of the middle of SDR/SIR: all records with the last TMS raised and one step, or the read past the end |
| SvfPlayer.Player.DoRunTest | svf-player/libsvfplayer.h:502-507 | routing, then the held TMS records, as RunTestFrom says |
| SvfPlayer.Player.HoldTms | svf-player/libsvfplayer.h:504-506 | the loop appends count records, TMS 1 in RESET and 0 elsewhere |
| SvfPlayer.Player.MergeIntoTemplate | svf-player/libsvfplayer.h:413-425 | the HDR/HIR/TDR/TIR merge gives MergeTemplate |
| SvfPlayer.Player.ProcessTemplate | svf-player/libsvfplayer.h:404-427 | the selected template is updated in place as SetTemplate says |
| SvfPlayer.Player.ProcessRunTest | svf-player/libsvfplayer.h:428-436 | the sticky run state and the run leave the player as ProcessRunTest says |
| SvfPlayer.Player.MergeIntoDefault | svf-player/libsvfplayer.h:445-457 | the SDR/SIR merge gives MergeDefault |
| SvfPlayer.Player.ProcessScan | svf-player/libsvfplayer.h:437-467 | SDR/SIR leave the player as Scan says |
| SvfPlayer.Player.ProcessStates | svf-player/libsvfplayer.h:468-472 | the STATE loop leaves the player as GoToAll says |
| SvfPlayer.Player.ProcessCommand | svf-player/libsvfplayer.h:393-477 | every command leaves the player as Process says |
| SvfExamples.ScanScenario | svf-player/libsvfplayer.h:393-477 | `STATE RESET; SDR 8 TDI (A5) TDO (5A) MASK (FF); STATE IDLE;`, with MASK in the TDO mask as the attribute loop puts it, on a fresh player emits exactly the 20 records 1,1,1,1,1,1, 0,1,0,0, 26,28,26,28,28,26,28,27, 1,0 |
| SvfExamples.ProcessThree | svf-player/libsvfplayer.h:393-477 | three commands in a row process as each does from the state the previous one left |
| SvfExamples.StateResetFromFresh | svf-player/libsvfplayer.h:468-472 | STATE RESET right after reset clocks the six-edge escape and nothing else |
| SvfExamples.StateIdleInIdle | svf-player/libsvfplayer.h:468-472 | STATE IDLE in IDLE appends nothing and changes nothing |
| SvfExamples.ScanExample | svf-player/libsvfplayer.h:437-467 | that SDR (FF in the TDO mask, no SMASK) from RESET pads the default with an all-0xFF TDI mask, routes, shifts and returns to IDLE |
| SvfExamples.EscapeToReset | svf-player/libsvfplayer.h:511-516 | from UNKNOWN, STATE RESET emits six TMS=1 records |
| SvfExamples.EnterDrShift | svf-player/libsvfplayer.h:508-529 | from RESET, DRSHIFT is reached with TMS 0,1,0,0 |
| SvfExamples.ShiftExample | svf-player/libsvfplayer.h:460-464 | A5 against 5A gives records 26,28,26,28,28,26,28 and a final 27 with TMS raised |
| SvfExamples.ExitToIdle | svf-player/libsvfplayer.h:508-529 | from DREXIT1, IDLE is reached with TMS 1,0 |
| SvfExamples.RunTestInIdle | svf-player/libsvfplayer.h:428-436 | RUNTEST IDLE 5 TCK in IDLE emits five TMS=0 records |

## Left out

- `svf-player/svfplayer.cpp` is not part of this model. It is the serial-port
  program around the header: terminal setup, reading the file line by line,
  sending the records and comparing TDO replies.
- The value of FREQUENCY. `strtod`'s double is not modelled. The model only
  checks that a prefix of the word is a number that `strtod` accepts, and
  that HZ follows. The player ignores the value anyway.
- The `frequency` field of `svfCommand`. The C++ reuses one command object
  between calls, so fields that a verb does not set keep old values. Every
  model command is built fresh: the fields a verb sets are as in the C++, and
  the rest hold defaults that no player step reads.
- `_warn` and the `fprintf` before the garbage error. Neither changes any
  state.
- `isspace` in locales other than C, and characters outside ASCII.
  `IsSpace` is the C locale's six white-space characters.
- `lineNum` overflow after 2^31 lines. `lineNum` is an unbounded integer.
- The raw-pointer lifetime contract of `curLine`. The unread rest of the line
  is held as a value, `pending`.
- The uninitialised fields of a default-constructed `svfPlayer` and the
  uninitialised `bufI`. The constructors start from reset values.
- The `exit` parameter of `doShift`. Every caller passes false, so TMS stays
  low in every shift record.
- `SvfMachine.BitAt`: the `& (1 << (i % 8))` test is modelled as division by
  the bit's weight and then `% 2`, which reads the same bit.
- `SvfPlayer.Player.GoToState`: the C++ loops forever towards UNKNOWN or
  UNDEFINED. The method returns `NonTerminating` instead. It never
  diverges, and `SvfRouting.NeverArrives` proves that the C++ loop would.
- `SvfPlayer.Player.ProcessCommand`: after an error the C++ has thrown, and
  the player's fields hold whatever was written before the throw. `Reflects`
  states only the error, not those fields. The one exception is
  `GoToState`, which states that a non-terminating call changes nothing.
- `SvfParser.Parser.NextCommand`: the cursor `bufI` after an error is not
  stated, because the next call resets it.
- Undefined behaviour is not given a meaning. Each case is the error
  `UndefinedBehaviour`:
  - a read past the end of a field in `doShift`;
  - `s[s.length()-1]` on an empty hex word;
  - `states[0]` of an empty list;
  - signed overflow of `dataLen + 7`.
- The 64-bit `long` of `strtol`. A number too large for it also falls
  outside int, so it fails the same way.
