# lpp in Dafny

lpp is a compiler for a small Pascal-like teaching language (MPPL), kept as a
series of student iterations. This project models the iterations' core in
Dafny 4.11 and proves what each part does:

- the three chained hash maps used as symbol tables (`3/hashmap.c`,
  `4/mppl_submit/hashmap.c`, `03/hashmap.c`), as one class over an array of
  bucket chains with a ghost finite map it stands for;
- the generic `DECLARE_STACK` stack (`03/stack.c`, `4/lpp.h`) and the older
  name/count list (`1/id-list.c`);
- the token ids and records of `4/lpp.h`;
- the three scanners: the buffer tokenizer of `02/scan.c` and the two
  one-token-at-a-time scanners with one look-ahead character (`1/scan.c`,
  `scan.c`), reading from a character sequence with a cursor in place of
  `fgetc`;
- the three recursive-descent parsers and checkers (`4/parse.c`,
  `03/parse.c`, `2/parse.c`), as classes whose fields are the C globals
  (cursor, scopes, counters, the name stack);
- the code generator of `4/codegen.c`: the symbol records it reads back from
  the cross-reference text, the lines it prints, the labels it numbers, and
  the meaning of its comparison and boolean-store blocks;
- the output file name of `4/main.c`.

Errors keep the C codes (`ERROR` is -1, `NORMAL` is 0), so the places where
the C compares against a code that is never returned are reproduced. A run
that in C dereferences NULL or reads past the token list is modelled by a
`halted` field (or a failure result), after which the model says nothing
more about the output.

The modules are `Wrappers` (Option), `Chars` (ctype and `printf` digits),
`Lpp` (the `4/lpp.h` enums), `Stack`, `HashMap`, `IdList`, `Stream` (the
character cursor shared by the scanners), `Scan02`, `Scan1`, `ScanRoot`,
`Symbols` (types, scopes and reference lists of the checkers), `Grammar`
(token-level helpers for the parsers), `Typing4` (the typing of
`4/parse.c`'s expressions and of the statements it decides, with the
rules it enforces), `Parse4`, `Parse03`, `Parse2`,
`CrossReference` (the sorted cross-reference table), `SymbolRecords`
(`parseSymbols`, `getSymbol`, `getArraySize`), `CodeGen` and `OutputName`.

## Model

| member | source | states |
|---|---|---|
| `Lpp.TokenIdsConsecutive` | 4/lpp.h:29-136 | The token ids run 1, 2, ... from `TNAME` to `TBREAK` in declaration order without a gap, `TBREAK` equals `NUMOFTOKEN` (49), and `TERROR` comes right after it. |
| `Lpp.FindKey` | 1/scan.c:66-74 | The index found in a keyword table is that of the first entry spelled like the text, and no earlier entry has that spelling; the table's length means no entry matches. |
| `Lpp.KeyIndex` | 02/scan.c:144-151 | The `strcmp` loop over the keyword table stops at exactly the index `FindKey` defines. |
| `Lpp.IsRelOp` | 4/parse.c:429-441 | `isRelOp` holds for exactly the six relational operators, which are the consecutive ids `TEQUAL` to `TGREQ`. |
| `Lpp.IsMulOp` | 4/parse.c:450-460 | `isMulOp` holds for `*`, `div` and `and`, none of them a relational operator. |
| `Lpp.IsAddOp` | 4/parse.c:468-478 | `isAddOp` holds for `+`, `-` and `or`, none of them a relational or a multiplying operator. |
| `HashMap.CharValue` | 3/hashmap.c:41 | A key character adds a value in [-128, 128) to the hash, as a signed C `char` does. |
| `HashMap.RollingHash` | 3/hashmap.c:37-44 | The rolling hash `h = 31*h + c` is kept as an unsigned 32-bit value, below 2^32, wrapping around. |
| `HashMap.Hash` | 3/hashmap.c:37-44 | `hash` returns the rolling hash of the whole key reduced modulo `size`, so the bucket index lies in [0, size). The same code is 4/mppl_submit/hashmap.c:37-44 and 03/hashmap.c:16-23. |
| `HashMap.FirstIndex` | 3/hashmap.c:57-64 | The position where the chain walk stops holds the key, and no entry before it does; the chain's length means the key is not in it. |
| `HashMap.EmptyTable` | 3/hashmap.c:23-25 | The table `newHashMap` builds has `size` buckets, all empty. |
| `HashMap.TablePut` | 3/hashmap.c:53-76 | Inserting keeps the number of buckets. |
| `HashMap.TableRemove` | 3/hashmap.c:137-163 | Removing keeps the number of buckets. |
| `HashMap.EmptyTableIsEmpty` | 3/hashmap.c:9-28 | A fresh map is well formed and stands for the empty map, so every lookup finds NULL (also 4/mppl_submit/hashmap.c:9-28 and 03/hashmap.c:3-14). |
| `HashMap.GetAfterPut` | 3/hashmap.c:53-98 | After `insertToHashMap(k, v)`, looking up `k` gives `v` and looking up any other key gives what it gave before. |
| `HashMap.FirstIndexSameKeys` | 3/hashmap.c:58-63 | Replacing values without touching keys leaves every key's first position unchanged. |
| `HashMap.FirstIndexBehindHead` | 3/hashmap.c:74-75 | An entry put in front of a chain moves every other key's first position one place back. |
| `HashMap.PutPresentKey` | 3/hashmap.c:57-64 | Inserting a key already present replaces the value of its entry in place and adds no entry: the bucket keeps its length and all other positions. |
| `HashMap.PutAbsentKey` | 3/hashmap.c:66-75 | Inserting a new key puts exactly one entry at the head of its bucket's chain and leaves every other bucket as it was. |
| `HashMap.PutWellFormed` | 3/hashmap.c:53-76 | Insertion keeps every entry in its key's bucket and no key twice in a chain. |
| `HashMap.FirstIndexIs` | 3/hashmap.c:143-149 | The stop position of the search loop is determined by the two facts the loop establishes. |
| `HashMap.UnlinkAt` | 3/hashmap.c:152-156 | Unlinking the entry at position `i` keeps the entries before it and shifts those after it by one. |
| `HashMap.ChainGetAfterRemove` | 3/hashmap.c:137-163 | In a chain without repeated keys, after the unlink the removed key is not found and every other key finds what it found before. |
| `HashMap.GetAfterRemove` | 3/hashmap.c:137-163 | After `removeFromHashMap(k)`, looking up `k` gives NULL and every other key's lookup is unchanged, whether the entry was the head of its chain or behind `pred`. |
| `HashMap.RemoveWellFormed` | 3/hashmap.c:137-163 | Removal keeps the table well formed. |
| `HashMap.PutAbstracts` | 3/hashmap.c:53-76 | A table standing for the map `m` stands for `m[k := v]` after inserting `(k, v)`. |
| `HashMap.RemoveAbstracts` | 3/hashmap.c:137-163 | A well-formed table standing for `m` stands for `m - {k}` after removing `k`. |
| `HashMap.HashMap.constructor` | 3/hashmap.c:9-28 | `newHashMap(size)` allocates `size` NULL buckets; the map it stands for is empty. |
| `HashMap.HashMap.Get` | 3/hashmap.c:85-98 | `getValueFromHashMap` returns the value the chain walk finds, which is the value the abstract map holds for the key, and NULL (None) for a key it does not hold (also 4/mppl_submit/hashmap.c:85-98 and 03/hashmap.c:46-59). |
| `HashMap.HashMap.Insert` | 3/hashmap.c:53-76 | `insertToHashMap` updates the bucket array in place to the table `TablePut` describes, and the abstract map becomes `old[k := v]`. For 03/hashmap.c:25-44 the stored string is a copy, which as a value is equal to the inserted one. |
| `HashMap.HashMap.Remove` | 3/hashmap.c:137-163 | `removeFromHashMap` returns 0 exactly when the key was present, and then unlinks it (the abstract map loses the key); it returns -1 and changes nothing when the key is absent (also 03/hashmap.c:81-107). |
| `HashMap.HashMap.Free` | 3/hashmap.c:121-128 | After `freeHashMap` the map holds nothing. |
| `Stack.Stack.Init` | 03/stack.c:10-19 | `_init` gives capacity 16 and no elements (also 4/lpp.h:305-314). |
| `Stack.Stack.Push` | 03/stack.c:22-33 | `_push` puts the value on top and adds one to the size; the capacity doubles exactly when the stack was full, so size never exceeds capacity (also 4/lpp.h:317-328). |
| `Stack.Stack.Pop` | 03/stack.c:36-43 | `_pop` returns the most recently pushed value and removes it; on an empty stack it is the fatal "Stack underflow" (None), and nothing changes (also 4/lpp.h:331-338). |
| `Stack.Stack.Peek` | 03/stack.c:46-53 | `_peek` returns the top element and changes nothing; it is the fatal "Stack is empty" (None) exactly when the stack has no element (also 4/lpp.h:341-348). |
| `Stack.Stack.IsEmpty` | 03/stack.c:56 | `_is_empty` holds exactly when the stack has no element. |
| `Stack.Stack.Size` | 03/stack.c:59 | `_size` is the number of elements. |
| `Stack.Stack.Destroy` | 03/stack.c:62-67 | `_destroy` leaves size and capacity 0 and no elements (also 4/lpp.h:357-362). |
| `IdList.SumAfterIncrement` | 1/id-list.c:60-61 | Incrementing one node's count raises the sum of all counts by exactly one. |
| `IdList.SumAfterPrepend` | 1/id-list.c:72-75 | A node put at the head adds its count to the sum. |
| `IdList.Printed` | 1/id-list.c:83-90 | The rows `print_idtab` prints are exactly the nodes with a nonzero count, in list order. |
| `IdList.IdTable.constructor` | 1/id-list.c:28-31 | `init_idtab` leaves the list empty, with no `id_countup` call counted. |
| `IdList.IdTable.Search` | 1/id-list.c:39-47 | `search_idtab` returns the node with that name, and NULL (None) exactly when no node has it. |
| `IdList.IdTable.CountUp` | 1/id-list.c:55-77 | `id_countup` of a known name increments only that node's count and keeps the list length; of an unseen name it puts one node with count 1 at the head. The names stay pairwise distinct and the counts sum to the number of calls. |
| `IdList.IdTable.PrintRows` | 1/id-list.c:83-90 | The loop of `print_idtab` yields the rows `Printed` defines. |
| `IdList.IdTable.Release` | 1/id-list.c:96-106 | `release_idtab` leaves the table empty, as after `init_idtab`. |
| `OutputName.LastSlash` | 4/main.c:27 | `strrchr(path, '/')`: the position found holds a slash and none follows it; -1 when there is none. |
| `OutputName.FileNameOf` | 4/main.c:24-44 | The file name keeps what follows the last `/` (the whole path without one) and, only when that is longer than four characters, drops exactly its last four; it never holds a `/`. |
| `OutputName.GetFileName` | 4/main.c:24-44 | `getFileName` computes `FileNameOf`. |
| `OutputName.GetOutputFileName` | 4/main.c:46-50 | `getOutputFileName` is the file name followed by `.csl`, and holds no `/`. |
| `OutputName.OutputFileNameExample` | 4/main.c:46-50 | `dir/prog.mpl` gives `prog.csl`. |
| `Stream.Next` | scan.c:133 | One more `fgetc` moves the look-ahead one character on, and at the end of the file it stays there: EOF is sticky. |
| `Stream.AlnumFrom` | scan.c:171-178 | The name loop `do ... while (isalnum(cbuf))` reads a run inside the file. |
| `Stream.AlnumFromFacts` | scan.c:171-178 | Every character of that run is alphanumeric and the look-ahead after it is not (also 1/scan.c:146-153). |
| `Stream.DigitsFrom` | scan.c:183-187 | The number loop reads a run of digits inside the file. |
| `Stream.DigitsFromFacts` | scan.c:183-187 | Every character of that run is a digit and the look-ahead after it is not (also 1/scan.c:158-162). |
| `Stream.DigitsFromAreDigits` | scan.c:180-187 | From a digit the run is a non-empty digit string inside the file, followed by a non-digit. |
| `Stream.LiteralFrom` | scan.c:189-205 | A closed string literal ends inside the file right after a quote character. |
| `Stream.LiteralSource` | scan.c:191-201 | Round trip: the decoded text with every quote written twice is exactly what the file holds between the two quotes, and the closing quote follows it (also 1/scan.c:166-177). |
| `Stream.Find` | scan.c:142-144 | The loop `while ((cbuf = fgetc(fp)) != c)` stops at the first `c` from where it starts; when it finds none, the file holds no `c` there and the scan ends in EOF. |
| `Stream.BraceEnd` | scan.c:141-146 | A closed `{` comment resumes the scan at least two characters later, inside the file. |
| `Stream.BraceEndCloses` | scan.c:141-146 | The character before the resume point is the first `}` after the `{` (also 1/scan.c:116-121). |
| `Stream.BlockEnd` | scan.c:148-161 | A closed block comment resumes right after a `*` followed by `/`, after the opening star. |
| `Stream.DoubleStarMissed` | scan.c:152-159 | As written, the character after a star is consumed even when it is itself a star, so `/* **/` is never closed and the scan reaches EOF. |
| `Stream.BlankStops` | scan.c:125-166 | The loop over blanks, line breaks and comments stops on a significant character of the file at or after where it started, and never lowers the line number; on a significant character it does not move (also 1/scan.c:100-141). |
| `Stream.SymbolLongestMatch` | scan.c:207-276 | The one-character switch recognises `:=`, `<=`, `<>` and `>=` exactly where both characters are spelled, and then consumes both; `:`, `<` and `>` otherwise, and every other symbol or illegal character consumes one (also 1/scan.c:183-251). |
| `Scan02.KeywordTable` | 02/scan.c:24-31 | The keyword table has `KEYWORDSIZE` (28) entries, each holding a keyword id, and every keyword id has an entry. |
| `Scan02.PunctTextAgrees` | 02/scan.c:38-41 | The symbol table has `PUNCTSIZE` (18) entries, and the `token_str` array at `id - 28` spells each symbol, so the token length and the pointer step equal the matched text. |
| `Scan02.PunctLengths` | 02/scan.c:38-41 | The first four symbols spell two characters, the others one, and none holds NUL. |
| `Scan02.FirstPrefix` | 02/scan.c:164-172 | The index found is that of the first table entry whose spelling starts the text, and no earlier entry starts it. |
| `Scan02.FirstPunctIsLongest` | 02/scan.c:38-41 | Because of the table order the first match is a longest one: `:=`, `<>`, `>=` and `<=` win over `:`, `<` and `>`. |
| `Scan02.AlnumRun` | 02/scan.c:204-214 | The name run lies inside the buffer, is alphanumeric throughout, and the character after it is not. |
| `Scan02.DigitRun` | 02/scan.c:239-248 | The digit run lies inside the buffer. |
| `Scan02.DigitRunFacts` | 02/scan.c:239-248 | Every character of the run is a digit and the one after it is not. |
| `Scan02.DigitRunIsDigits` | 02/scan.c:235-248 | From a digit the run is a non-empty digit string inside the buffer. |
| `Scan02.DoubleQuotesLength` | 02/scan.c:280-286 | The source form of a literal is one character longer per quote it holds. |
| `Scan02.LiteralEnd` | 02/scan.c:265-299 | A closed literal ends right after its source form and the closing quote, and the buffer holds exactly that source form: the text with every quote doubled. |
| `Scan02.AfterBreak` | 02/scan.c:180-192 | `checkLinenum` moves over at most two characters, all of them line-break characters, and moves exactly when it starts on `\n` or `\r`. |
| `Scan02.SkipTo` | 02/scan.c:308-318 | A comment loop that resumes does so right after a `c`, inside the buffer. |
| `Scan02.ScanTo` | 02/scan.c:310 | The first position holding `c` or the terminating NUL, with neither before it. |
| `Scan02.SkipToFindsFirst` | 02/scan.c:308-318 | The comment loop stops right after the first `c` before the end of the buffer, and reports EOF exactly when there is none; skipped line breaks never hide a `c`. |
| `Scan02.BlockEnd` | 02/scan.c:327-342 | A closed block comment resumes right after a `*` and `/`, inside the buffer. |
| `Scan02.SlashAfterOpeningStar` | 02/scan.c:329-339 | As written, the star that opens a block comment also counts toward closing it, so `/*/` is a whole comment. |
| `Scan02.NameTokenClassifies` | 02/scan.c:144-156 | A name becomes a keyword token exactly when it spells a keyword, and then carries that keyword's id; any other name is an identifier token (`TNAME`) keeping its text; the length is the name's. |
| `Scan02.NameTokenShape` | 02/scan.c:215-225 | A name token read with `at_bol` clear is well formed (kind and id agree, line stamped) and is never EOF. |
| `Scan02.PrefixIndex` | 02/scan.c:166-171 | The `strncmp` loop of `checkPunct` stops at the first entry that starts the text. |
| `Scan02.NameLoop` | 02/scan.c:203-214 | `readName`'s loop copies the alphanumeric run, and gives up exactly when it reaches `MAXSTRSIZE - 1` characters. |
| `Scan02.DigitLoop` | 02/scan.c:237-249 | `readNumber`'s loop reads a non-empty digit run; it overflows exactly when the run's decimal value exceeds `MAXNUM` (32768), and otherwise gives the run and its value. |
| `Scan02.StringLoop` | 02/scan.c:267-294 | `readString`'s loop succeeds exactly when the literal is closed, its source form is shorter than `MAXSTRSIZE - 1` and no NUL follows the closing quote; it then copies the source form and the text length (source length minus doubled quotes). |
| `Scan02.SkipLoop` | 02/scan.c:310-316 | The loop of `skipComment` computes what `SkipTo` defines, counting the line breaks it consumes. |
| `Scan02.BlockLoop` | 02/scan.c:329-340 | The nested loops of `skipBlockComment` compute what `BlockEnd` defines. |
| `Scan02.Tokenizer.constructor` | 02/scan.c:47-71 | The scanner globals start with line 1, both flags clear, no attributes and no tokens. |
| `Scan02.Tokenizer.NewToken` | 02/scan.c:124-137 | `newToken` stamps the token with `at_bol`, `has_space` and the line number, then clears both flags. |
| `Scan02.Tokenizer.LinkEof` | 02/scan.c:358 | `newToken(TK_EOF, 0, 0)` is appended to the list. |
| `Scan02.Tokenizer.Link` | 02/scan.c:250-254 | A token is appended with the caller's `str`, `num` and `has_space`. |
| `Scan02.Tokenizer.CheckKeyword` | 02/scan.c:144-156 | `checkKeyword` appends the first matching keyword's token with the keyword's length, or an identifier token carrying the text with `has_space` set. |
| `Scan02.Tokenizer.CheckPunct` | 02/scan.c:164-172 | `checkPunct` returns the id of the first entry that starts the text, -1 when none does. |
| `Scan02.Tokenizer.CheckLinenum` | 02/scan.c:180-192 | `checkLinenum` consumes one line terminator (`\n`, `\n\r`, `\r` or `\r\n`) and counts one line; any other character is left alone. |
| `Scan02.Tokenizer.ReadName` | 02/scan.c:201-226 | `readName` appends one token: EOF exactly when the run has `MAXSTRSIZE - 1` characters or more, otherwise the name's token with the text in `string_attr`, well formed. |
| `Scan02.Tokenizer.LinkName` | 02/scan.c:215-224 | After `checkKeyword`, `program`, `procedure`, `var`, `begin`, `end`, `else` and `if` get `at_bol` and lose `has_space`; the type names and `true`/`false` get `has_space`. |
| `Scan02.Tokenizer.ReadNumber` | 02/scan.c:235-256 | `readNumber` appends EOF when the running value exceeds `MAXNUM`, otherwise a `TNUMBER` token with the digits and their value. |
| `Scan02.Tokenizer.ReadString` | 02/scan.c:265-299 | `readString` appends a `TSTRING` token exactly when the literal closes within the size bound and no NUL follows; it keeps the source form in `str` and the text length in `len`; otherwise it appends EOF. |
| `Scan02.Tokenizer.SkipComment` | 02/scan.c:308-318 | `skipComment` resumes after the first `}`, counting the line breaks inside; when the buffer ends first it appends EOF and returns NULL. |
| `Scan02.Tokenizer.SkipBlockComment` | 02/scan.c:327-342 | `skipBlockComment` resumes after the first `*/` it finds, counting line breaks; when the buffer ends first it appends EOF and returns NULL. |
| `Scan02.Tokenizer.Separator` | 02/scan.c:361-393 | Runs `SeparatorRound`: blanks set `has_space`; a line break counts one line and clears it; a closed comment counts its lines and sets it; none links a token; an open comment or a `/` that does not start one links EOF, leaving the list complete. The line counter never decreases and the list stays valid. |
| `Scan02.Tokenizer.BraceAt` | 02/scan.c:375-379 | Runs the round of the comment skip that starts at `{`: a closed comment counts its lines, links nothing and sets `has_space` with the pointer after the `}`; an open one links EOF, leaving the list complete. |
| `Scan02.Tokenizer.StarAt` | 02/scan.c:381-386 | The same for a `/*` comment entered at its star, with the pointer after the closing `*/`. |
| `Scan02.Tokenizer.NameAt` | 02/scan.c:395-399 | Runs `NameRound`: links the name's keyword or identifier token and moves the pointer past the whole alphanumeric run, or links EOF when the run has `MAXSTRSIZE - 1` characters or more, leaving the list complete. |
| `Scan02.Tokenizer.NumberAt` | 02/scan.c:400-404 | Runs `NumberRound`: links a `TNUMBER` token with the digits and their value and moves the pointer past the digit run, or links EOF when the value exceeds `MAXNUM`, leaving the list complete. |
| `Scan02.Tokenizer.StringAt` | 02/scan.c:405-409 | Runs `QuoteRound`: links a `TSTRING` token and moves the pointer past the source form and both quotes, or links EOF when the literal is open, too long or followed by the end of the buffer, leaving the list complete. |
| `Scan02.Tokenizer.PunctAt` | 02/scan.c:410-428 | Runs `SymbolRound`: links the first symbol of the table spelled at the pointer, with its spelled length and `has_space` set except on `;` and `.`, and moves past it; with no match it links EOF, leaving the list complete. |
| `Scan02.Tokenizer.ScanRound` | 02/scan.c:356-430 | One pass of `scan`'s loop runs the round `RoundAt` gives for the character at the pointer: at NUL it links EOF and stops, leaving the list complete; otherwise it runs the separator, name, number, string or symbol round. The line counter never decreases and a scan that goes on keeps the list valid. |
| `Scan02.Tokenizer.RoundKeeps` | 02/scan.c:351-433 | One round of `scan`'s loop keeps its account: the list it ends the scan with, or the list it reaches the next pointer with followed by the tokens scanned from there, is what `TokensFrom` gives from the pointer it started at. |
| `Scan02.Tokenizer.Scan` | 02/scan.c:351-433 | `scan` links exactly the list `TokensFrom` defines from the start pointer, the line counter as it was and both flags clear: each name as its keyword or identifier token, each number, string and symbol as its token, in source order; blanks, line breaks and closed comments link nothing; the list ends with one EOF at the end of the buffer or at the first lexical error, and line numbers never decrease. An empty buffer gives EOF alone. |
| `Scan02.Tokenize` | 02/scan.c:441-446 | `tokenize` gives the list `TokensFrom` defines for the whole buffer from line 1: non-empty, ending with exactly one EOF token carrying the last line number, every token before it well formed and line numbers nondecreasing; an empty buffer gives only EOF on line 1. |
| `Scan1.KeywordIdSpec` | 1/scan.c:66-74 | `check_keyword` gives `TNAME` for a name no entry spells, and otherwise the token of the first entry spelled so. |
| `Scan1.KeywordId` | 1/scan.c:66-74 | `check_keyword`'s answer is `TNAME` or the `keytoken` of an entry that spells the name. |
| `Scan1.NewlineConsumesOneTerminator` | 1/scan.c:81-88 | `check_newline` consumes exactly one line terminator (`\r`, `\n`, `\r\n` or `\n\r`), the longest one present. |
| `Scan1.Scanner.constructor` | 1/scan.c:51-59 | `init_scan` reads the first character and starts counting at line 1. |
| `Scan1.Scanner.Advance` | 1/scan.c:108 | `cbuf = fgetc(fp)` moves the look-ahead one character on, sticking at EOF. |
| `Scan1.Scanner.CheckKeyword` | 1/scan.c:66-74 | The loop of `check_keyword` returns the answer `KeywordIdSpec` characterises. |
| `Scan1.Scanner.CheckNewline` | 1/scan.c:81-88 | One terminator is consumed and the line counter goes up by exactly one. |
| `Scan1.Scanner.SkipUntil` | 1/scan.c:117-119 | The look-ahead stops on the first `c` after it exactly when the file has one; otherwise the scan fails. |
| `Scan1.Scanner.SkipBrace` | 1/scan.c:116-121 | A `{` comment is skipped to just after its first `}`, and fails exactly when there is none. |
| `Scan1.Scanner.SkipBlock` | 1/scan.c:123-136 | A block comment is skipped to where `BlockEnd` says, and fails exactly where it gives none. |
| `Scan1.Scanner.ReadAlnum` | 1/scan.c:145-153 | The name loop copies the alphanumeric run and fails exactly when it reaches `MAXSTRSIZE - 1` characters, the look-ahead then left on the last one copied. |
| `Scan1.Scanner.ReadName` | 1/scan.c:143-154 | A name read: the text is the run and the token is `check_keyword`'s answer for it, S_ERROR when too long. |
| `Scan1.Scanner.ReadNumber` | 1/scan.c:155-163 | A number read: `TNUMBER` with the decimal value of the digit run, S_ERROR as soon as the running value exceeds `MAXNUM` (32768). |
| `Scan1.Scanner.ReadString` | 1/scan.c:164-181 | A string read: a doubled quote stores one quote; too long a text, EOF inside the literal or EOF right after it give S_ERROR, otherwise `TSTRING` with the decoded text. |
| `Scan1.Scanner.ReadSymbol` | 1/scan.c:183-251 | The symbol switch gives the token and end position `SymbolLex` defines (its longest match is `Stream.SymbolLongestMatch`). |
| `Scan1.Scanner.SkipBlanks` | 1/scan.c:100-141 | The top of the loop skips blanks, breaks and comments to the position and line `Blank` defines, and fails exactly where it fails. |
| `Scan1.Scanner.Scan` | 1/scan.c:96-254 | `scan` records the line it began on; when skipping fails it returns S_ERROR, otherwise the token read at the first significant character. |
| `Scan1.Scanner.GetLinenum` | 1/scan.c:261 | `get_linenum` is the line recorded when the last `scan` began. |
| `ScanRoot.KeywordOfSpelling` | scan.c:33-94 | The `if` chain of `check_keyword` recognises every reserved word as its own token. |
| `ScanRoot.KeywordOf` | scan.c:33-94 | The `if` chain of `check_keyword` gives `TNAME` or the id of a reserved word. |
| `ScanRoot.KeywordOfNames` | scan.c:33-94 | Any name that is not a reserved word's spelling is `TNAME`: a result other than `TNAME` is the token whose spelling the name is. |
| `ScanRoot.Scanner.constructor` | scan.c:19-27 | `init_scan` reads the first character and starts counting at line 1. |
| `ScanRoot.Scanner.Advance` | scan.c:133 | `cbuf = fgetc(fp)` moves the look-ahead one character on, sticking at EOF. |
| `ScanRoot.Scanner.CheckKeyword` | scan.c:33-94 | `check_keyword` gives `TNAME` or the reserved word the text spells. |
| `ScanRoot.Scanner.CheckNewline` | scan.c:100-117 | As written, whichever break `cbuf` holds one character is read and one line counted, so `\r\n` and `\n\r` count as two lines. |
| `ScanRoot.Scanner.SkipUntil` | scan.c:142-144 | The look-ahead stops on the first `c` after it exactly when the file has one; otherwise the scan fails. |
| `ScanRoot.Scanner.SkipBrace` | scan.c:141-146 | A `{` comment is skipped to just after its first `}`, and fails exactly when there is none. |
| `ScanRoot.Scanner.SkipBlock` | scan.c:148-161 | A block comment is skipped to where `BlockEnd` says, and fails exactly where it gives none. |
| `ScanRoot.Scanner.ReadAlnum` | scan.c:170-178 | The name loop copies the alphanumeric run and fails exactly when it reaches `MAXSTRSIZE - 1` characters. |
| `ScanRoot.Scanner.ReadName` | scan.c:168-179 | A name read: the text is the run and the token is `check_keyword`'s answer, -1 when too long. |
| `ScanRoot.Scanner.ReadNumber` | scan.c:180-188 | A number read: `TNUMBER` with the value of the digit run, -1 as soon as the running value exceeds `MAXNUM`. |
| `ScanRoot.Scanner.ReadString` | scan.c:189-205 | A string read: a doubled quote stores one quote; EOF inside the literal or right after it gives -1; there is no length check. |
| `ScanRoot.Scanner.ReadSymbol` | scan.c:207-276 | The symbol switch gives the token and end position `SymbolLex` defines; its EOF case cannot be reached. |
| `ScanRoot.Scanner.SkipBlanks` | scan.c:125-166 | The top of the loop skips blanks, breaks (one line per break character) and comments to where `Blank` says, failing exactly where it fails. |
| `ScanRoot.Scanner.Scan` | scan.c:123-279 | `scan` returns -1 when skipping fails, otherwise the token read at the first significant character. |
| `ScanRoot.Scanner.GetLinenum` | scan.c:281 | `get_linenum` returns the current line, the one the last token ended on. |
| `Symbols.CopyType` | 4/parse.c:86-94 | `copyType` copies a type record node by node through `etp` and `paratp`, NULL for NULL; the copy equals its source (also 03/parse.c:82-91). |
| `Symbols.DecodeIdToKind` | 4/parse.c:103-137 | `decodeIDtoTYPEKIND` gives ERROR or a kind from `TPINT` to `TPPROC`. `TPPROC` comes exactly for `procedure`. Otherwise the kind is an array kind exactly when `is_array` is set (also 03/parse.c:93-127). |
| `Symbols.DecodeKindToId` | 4/parse.c:145-161 | `decodeTYPEKINDtoID` gives a standard type keyword exactly for the plain and array kinds `TPINT` to `TPARRAYBOOL`, and fails with its report for every other kind (also 03/parse.c:129-144). |
| `Symbols.DecodeRoundTrip` | 4/parse.c:103-161 | `decodeTYPEKINDtoID` after `decodeIDtoTYPEKIND` gives back each standard type keyword, for the plain and the array kind; the array kind is the plain kind plus `TPARRAYINT` (also 03/parse.c:93-144). |
| `Symbols.DecodeIdToKindErrors` | 4/parse.c:103-137 | `decodeIDtoTYPEKIND` returns `ERROR` exactly on tokens other than `procedure`, the three type keywords, a number, a string and the two boolean constants. |
| `Symbols.PushIref` | 4/parse.c:169-177 | `pushIref` appends the reference line at the end of the list, keeping the earlier lines in their order (also 03/parse.c:146-154). |
| `Symbols.LookupAndAddIref` | 4/parse.c:187-198 | `lookupAndAddIref` keeps the scopes well formed and does not change which table is current. |
| `Symbols.LookupAndAddIrefSpec` | 4/parse.c:187-198 | The name is found exactly when it is visible (the current table, then the global one while the local table is current); the entry found, and nothing else, gains the reference line; a name not found changes nothing (also 03/parse.c:156-167). |
| `Symbols.LookupAndAddIrefKeepsRefs` | 4/parse.c:169-198 | Reference lists only grow: after a lookup every visible entry keeps its earlier lines as a prefix. |
| `Symbols.EnterScope` | 4/parse.c:303-307 | `enterScope` makes a fresh local table of `HASHSIZE` buckets, holding no name, current; the global table is unchanged (also 03/parse.c:232-236). |
| `Symbols.DeclareVars` | 4/parse.c:568-584 | `processVarNameStack` keeps the number of buckets of the table it fills. |
| `Symbols.DeclareVarsSucceeds` | 4/parse.c:568-584 | The declarations go through exactly when every stacked name is fresh; a name already in the current table, or stacked twice, stops the program (also 03/parse.c:490-506). |
| `Symbols.DeclareVarsDeclares` | 4/parse.c:568-584 | After declarations that go through, each stacked name holds its own entry with the declared type, and every other name keeps what it had. |
| `Symbols.GetAfterDeclaringTop` | 4/parse.c:570-575 | Declaring the popped top name adds exactly that entry as far as the rest of the stack can see. |
| `Symbols.FreshNamesPop` | 4/parse.c:570-575 | A fresh stack stays fresh, without its top, in the table that now holds the top name. |
| `Symbols.FreshNamesPush` | 4/parse.c:570-575 | Conversely, an absent top name over a rest fresh in the table holding it makes a fresh stack. |
| `Symbols.ChainKindsOfParamChain` | 4/parse.c:1145-1160 | Walking the `paratp` list built from the parameter kinds gives those kinds back in order. |
| `Symbols.DeclareParams` | 4/parse.c:1143-1162 | The inner loop of `parseFormalParamters` keeps the number of buckets of the local table. |
| `Symbols.DeclareParamsDeclares` | 4/parse.c:1143-1162 | After the loop every stacked name is in the local table: an entry already there stays as it was; a new name is a parameter with one node of the group's kind; other names are untouched. |
| `Symbols.Entries` | 4/parse.c:264-276 | The entries of an empty table are none. |
| `Symbols.EntriesComplete` | 4/parse.c:264-276 | `printCrossreferenceTable` collects every entry of every chain, and nothing else. |
| `Symbols.WithParams` | 4/parse.c:1107-1116 | `registerProcedureParameters` sets the procedure's `paratp` so that its list walks as the given parameter kinds, keeping name, line and type kind. |
| `CrossReference.BeforeTotal` | 4/parse.c:254-257 | `strcmp` orders two different keys one way or the other. |
| `CrossReference.BeforeAsymmetric` | 4/parse.c:254-257 | No two keys each sort before the other. |
| `CrossReference.NotAfterTransitive` | 4/parse.c:254-257 | "Sorts no later than" under `strcmp` is transitive. |
| `CrossReference.InsertByKey` | 4/parse.c:279 | Inserting an entry into the sorted rest adds exactly one element. |
| `CrossReference.SortByKey` | 4/parse.c:279 | The `qsort` order keeps the number of entries. |
| `CrossReference.InsertByKeyContents` | 4/parse.c:279 | Insertion keeps every entry and adds the new one (as multisets), and the result starts with the new entry or with the old first one. |
| `CrossReference.InsertByKeySorted` | 4/parse.c:279 | Inserting into a sorted sequence gives a sorted sequence. |
| `CrossReference.SortByKeySorts` | 4/parse.c:279 | The order `qsort` with `compareEntryKeys` leaves is sorted by key and a permutation of the entries gathered. |
| `CrossReference.SortedByKeyPairs` | 4/parse.c:254-257 | In a sorted sequence every key sorts no later than every key behind it, not only the next one. |
| `CrossReference.CrossReferenceRows` | 4/parse.c:264-281 | The rows `printCrossreferenceTable` prints are the table's entries, each exactly once, in `strcmp` order of their keys. |
| `SymbolRecords.SplitAtNone` | 4/codegen.c:57 | A text without the separator does not split (where `while (*p != '|') p++` runs off the buffer). |
| `SymbolRecords.SplitAtConcat` | 4/codegen.c:57-58 | The split is at the first separator. |
| `SymbolRecords.LookupFirst` | 4/codegen.c:31-39 | `getSymbol` finds a record exactly when one has the key, and then the first such record; none gives the null symbol. |
| `SymbolRecords.GetSymbol` | 4/codegen.c:31-39 | The `strcmp` loop of `getSymbol` returns what `Lookup` defines. |
| `SymbolRecords.Syms` | 4/codegen.c:50-68 | The symbols read are one per record, in order. |
| `SymbolRecords.ParseRecordOfText` | 4/codegen.c:54-65 | Round trip: a well-formed line `key|label|type|rest` reads back as its three fields, leaving what follows its line end. |
| `SymbolRecords.ParseRecordsOfText` | 4/codegen.c:50-68 | Round trip: the text of well-formed records, whatever follows, parses back to their symbols when exactly that many lines are read. |
| `SymbolRecords.FindChar` | 4/codegen.c:57 | `while (*p != c) p++` stops at the first `c`, or at the end of the text. |
| `SymbolRecords.SplitAtFound` | 4/codegen.c:57-58 | What the pointer loop found is the split of the text at its first `c`. |
| `SymbolRecords.ReadField` | 4/codegen.c:56-58 | One field is the text up to the next `c`, the pointer left after it; not found exactly when the text has no `c`. |
| `SymbolRecords.ParseSymbolAt` | 4/codegen.c:56-65 | One line of `parseSymbols` succeeds exactly when its three `|` and its line end are found, and reads the record `ParseRecord` defines. |
| `SymbolRecords.ParseSymbols` | 4/codegen.c:50-68 | `parseSymbols` reads `line_count` records one after the other; None when the text runs out first (where the C pointer runs past the buffer). |
| `SymbolRecords.LeadingDigits` | 4/codegen.c:325 | The digits `atoi` reads are the longest digit prefix of the text. |
| `SymbolRecords.LeadingDigitsOfDigits` | 4/codegen.c:325 | A digit string's leading digits are the whole string. |
| `SymbolRecords.AtoiOfNatToString` | 4/codegen.c:325 | `atoi` reads back what `%d` printed for a non-negative number. |
| `SymbolRecords.ArraySizeOfArrayText` | 4/codegen.c:314-326 | `getArraySize` of the array type text the cross-reference table prints (`array[N]of...`, 4/parse.c:242) gives `N` back. |
| `SymbolRecords.GetArraySize` | 4/codegen.c:314-326 | The pointer walk of `getArraySize` computes `ArraySize`: None with no `[`, no `]` after it, or 64 characters or more between them. |
| `SymbolRecords.IsArrayOfTypeText` | 4/codegen.c:312 | `isArray` holds for the array type texts the cross-reference table prints, and not for `integer`, `char`, `boolean` or a procedure type. |
| `SymbolRecords.IsArray` | 4/codegen.c:312 | `isArray` holds exactly when the type text starts with `a`; `integer`, `char` and `boolean` are no arrays. |
| `Parse4.KindNote` | 4/parse.c:145-161 | `decodeTYPEKINDtoID` reports nothing for a standard or array kind and one invalid-kind message otherwise. |
| `Parse4.GetFiledUnderName` | 4/parse.c:568-584 | In a table whose entries are filed under their own names, the entry found for a key carries that name. |
| `Parse4.PutFiledUnderName` | 4/parse.c:574-575 | Every insertion of the checker files the new entry under its own name, which keeps that property. |
| `Parse4.DeclareVarsChecked` | 4/parse.c:568-584 | `processVarNameStack` as written keeps the number of buckets of the table it fills. |
| `Parse4.DeclareVarsCheckedIsDeclareVars` | 4/parse.c:568-584 | With entries filed under their names, the `strcmp` test never fails, so the 4/parse.c declarations are those of 03/parse.c:490-506. |
| `Parse4.AlreadyDefinedStops` | 4/parse.c:577-580 | A variable declared twice, in the table or twice on the stack, is reported as already defined and stops the program; fresh names always go through. |
| `Parse4.ArgumentErrorNone` | 4/parse.c:870-899 | The arguments pass the per-argument checks exactly when their kinds are a prefix of the parameter kinds. |
| `Parse4.ArgumentErrorSnoc` | 4/parse.c:884-898 | One more argument is too many when no parameter is left and a mismatch when its kind is not the next parameter's. |
| `Parse4.CallArgumentsMatch` | 4/parse.c:870-906 | A call passes the argument checks and the "too few" check exactly when the argument kinds equal the parameter kinds, in number and order. |
| `Parse4.ChainStep` | 4/parse.c:875-882 | Walking `paratp` one argument at a time checks the argument against the next parameter kind and keeps the rest of the list in step. |
| `Parse4.ChainPasses` | 4/parse.c:875-882 | While the parameter list walked so far holds the argument kinds in front of what is left, no argument error has occurred. |
| `Parse4.Parse` | 4/parse.c:1269-1281 | `parse` succeeds only on `program NAME ;`; a program in error is reported as aborted, unless it crashed; a first token other than `program` gives exactly "expected program" and "aborted". |
| `Parse4.Parser.constructor` | 4/parse.c:1269-1274 | `cur` at the first token, an empty global table current, no procedure, an empty name stack, no type, nothing reported. |
| `Parse4.Parser.Consume` | 4/parse.c:417-421 | `consumeToken` moves `cur` on by one; stepping past the EOF token leaves it NULL, and the next access crashes. |
| `Parse4.Parser.Report` | 3/util.c:10-18 | `error` records one message and returns `ERROR`. |
| `Parse4.Parser.ReportNaming` | 4/parse.c:929-931 | A message that names a kind through `decodeTYPEKINDtoID` is preceded by that function's own report for an invalid kind. |
| `Parse4.Parser.LookupAndAddIref` | 4/parse.c:187-198 | The parser's tables change as `Symbols.LookupAndAddIref` says. |
| `Parse4.Parser.EnterScope` | 4/parse.c:303-307 | A fresh local table becomes current. |
| `Parse4.Parser.ExitScope` | 4/parse.c:315-321 | `exitScope` forgets the procedure name and makes the global table current again. |
| `Parse4.Parser.ParseType` | 4/parse.c:505-538 | `parseType` accepts exactly a standard type or `array [ NUMBER ] of` standard type with a size other than 0; it then returns the kind, consumes 1 or 6 tokens and sets `type` to the record the type denotes; a zero size is reported after consuming two tokens. |
| `Grammar.TypeDenoted` | 4/parse.c:508-536 | The record `parseType` builds. For a standard type it is that type's kind alone. For an array it is an outer record of kind -1 whose element record holds the size and a kind that decodes to the element type (also 03/parse.c:433-464). |
| `Parse4.Parser.ParseVarNames` | 4/parse.c:545-562 | `parseVarNames` pushes exactly the names of `NAME {, NAME}` with their lines; a first token that is not a name fails silently, a comma without a name after it is reported. |
| `Parse4.Parser.ProcessVarNameStack` | 4/parse.c:568-584 | The stacked names are declared into the current table as `DeclareVarsChecked` says and the stack is emptied; the program stops exactly when a name was defined before, after reporting it. |
| `Parse4.Parser.EndVarGroup` | 4/parse.c:605-607 | A group's `;` is required before the names are declared and consumed; the stack is then empty. |
| `Parse4.Parser.ParseVarGroup` | 4/parse.c:598-607 | A group `names : type ;`; `parseType`'s result is compared with `TPRERROR`, which it never returns, so a type in error goes on to the `;`. |
| `Parse4.Parser.ParseVarDeclaration` | 4/parse.c:591-625 | `var` then one or more groups, all names declared, ending before a token that is not a name. |
| `Parse4.Parser.ParseTerm` | 4/parse.c:632-655 | Computes `Typing4.TermKind` at the cursor: its result, crash, end position and tables are that function's (whose rules are `Typing4.TermKindRules`); a token that starts neither a factor nor an operator is reported with nothing consumed. |
| `Parse4.Parser.ParseSimpleExpression` | 4/parse.c:662-694 | Computes `Typing4.SimpleKind` at the cursor (rules in `Typing4.SimpleKindRules`): a sign needs an integer term, each term after `or` must be boolean and after `+` or `-` integer, and the kind is the first term's. |
| `Parse4.Parser.ParseExpression` | 4/parse.c:701-711 | Computes `Typing4.ExprKind` at the cursor (rules in `Typing4.ExprKindRules`): with a relational operator the kind is boolean, without one the simple expression's; a result that is a kind stops before a token that is no relational operator. |
| `Parse4.Parser.ParseConstant` | 4/parse.c:727-739 | A constant's kind (integer, boolean or char) is written into the last type parsed, which crashes when no type was parsed yet. |
| `Parse4.Parser.ParseCast` | 4/parse.c:751-771 | Computes `Typing4.CastKind` at the cursor (rules in `Typing4.CastKindRules`); with no type parsed yet it crashes before consuming anything. |
| `Parse4.Parser.ParseFactor` | 4/parse.c:718-777 | Computes `Typing4.FactorKind` at the cursor (rules in `Typing4.FactorKindRules`); a token no factor starts with is reported with nothing consumed. |
| `Parse4.Parser.ParseVar` | 4/parse.c:915-938 | Computes `Typing4.VarKind` at the cursor (rules in `Typing4.VarKindRules`); a token other than a name, and an unknown name, are reported with nothing consumed and the tables unchanged; a plain known name reports nothing. |
| `Parse4.Parser.ParseAssignment` | 4/parse.c:784-793 | Its result, crash, end and tables are `Typing4.AssignKind`'s: NORMAL exactly when the variable, then `:=`, then the expression are read and neither side is TPRERROR, whatever their kinds (an operand typed ERROR passes); a missing `:=` is the last diagnostic. |
| `Parse4.Parser.ParseCondition` | 4/parse.c:800-827 | `if` then a condition whose kind is `Typing4.ExprKind` after `if`: success needs it boolean (or of the boolean array kind) and followed by `then`; any other kind fails, and one that is not `TPRERROR` is reported as "expected boolean"; a crash in the condition is a crash. |
| `Parse4.Parser.ParseIteration` | 4/parse.c:834-844 | `while` then the condition typed by `Typing4.ExprKind`: TPRERROR fails, any other kind is accepted; `do` must follow (else it is reported); the body is parsed after it with the iteration level raised and never lowered again, so an empty body gives NORMAL right after `do`. |
| `Parse4.Parser.ParseArgument` | 4/parse.c:873-882 | Reads `Typing4.ExprKind` at the cursor as one argument: unless it is `TPRERROR` it is compared with the next parameter, and it is accepted exactly when a parameter is left and has its kind; otherwise too many arguments or a mismatch is reported, as `Parse4.ArgumentError` says for the argument kinds so far. |
| `Parse4.Parser.ParseArguments` | 4/parse.c:870-899 | Reads exactly the list `Typing4.ArgsFrom` defines against the parameter kinds: its argument kinds, crash, end and tables; success leaves the unread parameter kinds as the rest of the list, and the first argument error is the last diagnostic. |
| `Parse4.Parser.ParseCallee` | 4/parse.c:855-866 | The callee is looked up before the checks; a call of the procedure being parsed is a recursive call and a name that is not a procedure is undefined; otherwise its parameter list is returned. |
| `Parse4.Parser.ParseCall` | 4/parse.c:851-908 | `call NAME [( args )]`: a recursive call and a callee that is not a procedure are reported; otherwise the arguments are `Typing4.ArgsFrom` against the callee's parameter kinds, and the call succeeds exactly when that list passes, is closed by `)` and its kinds equal the parameter kinds in number and order; too many, a mismatch or too few arguments are each reported. |
| `Parse4.Parser.ParseInputVariable` | 4/parse.c:953-955 | Reads `Typing4.VarKind` at the cursor as one variable: unless it is `TPRERROR` it is accepted exactly when it is integer or char, and another kind is reported as "expected integer". |
| `Parse4.Parser.ParseInputVariables` | 4/parse.c:950-961 | The loop of `parseInput` reads exactly the list `Typing4.ReadVarsFrom` defines: its kinds, crash, end and tables; a last variable that is neither integer nor char is the last diagnostic. |
| `Parse4.Parser.ParseInput` | 4/parse.c:945-966 | `read`/`readln`, then with `(` exactly the variable list `Typing4.ReadVarsFrom` defines, succeeding when it passes and is closed by `)`; a variable of a kind other than integer or char is reported. |
| `Parse4.Parser.ParseOutputFormat` | 4/parse.c:973-990 | Computes `Typing4.FormatKind`: a string of length other than 1, or an expression of any kind but TPRERROR (the check at 981-984 tests for TPRERROR where it cannot be), optionally followed by `: NUMBER`, a missing number being the last diagnostic. |
| `Parse4.Parser.ParseOutputFormats` | 4/parse.c:1005-1010 | The format loop computes `Typing4.FormatsFrom`: its result, crash, end and tables. |
| `Parse4.Parser.ParseOutputStatement` | 4/parse.c:997-1014 | `write`/`writeln` alone is NORMAL after one token; with `(` it is NORMAL exactly when the formats `Typing4.FormatsFrom` reads pass and `)` closes them, ending after it; any other first token is reported. |
| `Parse4.Parser.ParseStatement` | 4/parse.c:1021-1072 | A token no statement starts with is the empty statement and changes nothing; `break` is an error exactly when no loop was entered. |
| `Parse4.Parser.ParseCompoundStatement` | 4/parse.c:1079-1098 | `begin statement {; statement} end`, ending right after `end`. |
| `Parse4.Parser.RegisterProcedureParameters` | 4/parse.c:1107-1116 | Succeeds exactly when the current procedure has a global entry with a type, which then gets the parameter list; otherwise it is reported and nothing changes. |
| `Parse4.Parser.DeclareParameterGroup` | 4/parse.c:1143-1162 | Each stacked name gives one parameter node of the group's kind, and the names not yet in the local table are entered as parameters; the stack is left empty. |
| `Parse4.Parser.ParseGroupType` | 4/parse.c:1135-1140 | `: standard-type` closes a group, giving the type's kind; otherwise ':' or the type is reported as expected. |
| `Parse4.Parser.ParseParameterGroup` | 4/parse.c:1132-1163 | One group adds its type's kind once per name, in source order. |
| `Parse4.Parser.ParseParameterGroups` | 4/parse.c:1131-1165 | The kinds collected over `group {; group}` are one per formal name in source order, each its group's type. |
| `Parse4.Parser.ParseFormalParameters` | 4/parse.c:1123-1171 | `( groups )` then the procedure's global entry gets the parameter list built from those kinds. |
| `Parse4.Parser.DeclareProcedure` | 4/parse.c:1186-1197 | A procedure name already in the global table is reported; otherwise it is entered with a fresh procedure type and becomes the current procedure. |
| `Parse4.Parser.ParseProcedureHead` | 4/parse.c:1180-1202 | `procedure NAME [params] ;`: a local scope is entered first; the result of the formal parameters is not checked. |
| `Parse4.Parser.ParseSubProgram` | 4/parse.c:1178-1214 | The head, then `[var-declaration] compound-statement ;`; on success the local scope is left and no procedure is current. |
| `Parse4.Parser.ParseBlock` | 4/parse.c:1221-1237 | Any number of variable declarations and procedures, then the compound statement, ending after `end`. |
| `Parse4.Parser.ParseProgram` | 4/parse.c:1244-1262 | Success means exactly `program NAME ; block .` was read; a first token other than `program` is reported with nothing consumed. |
| `Typing4.VarKind` | 4/parse.c:915-938 | The typing of `parseVar` at a position: the cursor moves forward within the list, a crash is ERROR, and the tables stay well formed. |
| `Typing4.EntryKind` | 4/parse.c:922-937 | The rest of `parseVar` after the name was found: an index must be integer and closed by `]`, and gives the element kind; the same bounds as `VarKind`. |
| `Typing4.CastKind` | 4/parse.c:751-771 | The typing of a cast at a position, with the same bounds. |
| `Typing4.FactorKind` | 4/parse.c:718-777 | The typing of `parseFactor` at a position, with the same bounds. |
| `Typing4.TermRest` | 4/parse.c:636-652 | The loop of `parseTerm` after the first factor, with the same bounds. |
| `Typing4.TermKind` | 4/parse.c:632-655 | The typing of `parseTerm` at a position, with the same bounds. |
| `Typing4.SimpleRest` | 4/parse.c:680-692 | The loop of `parseSimpleExpression` after the first term, with the same bounds. |
| `Typing4.SimpleKind` | 4/parse.c:662-694 | The typing of `parseSimpleExpression` at a position, with the same bounds. |
| `Typing4.ExprRest` | 4/parse.c:705-709 | The loop of `parseExpression` after the first simple expression, with the same bounds. |
| `Typing4.ExprKind` | 4/parse.c:701-711 | The typing of `parseExpression` at a position, with the same bounds. |
| `Typing4.VarKindRules` | 4/parse.c:915-938 | A token other than a name and an unknown name are ERROR with nothing consumed and the tables unchanged; a plain known name has its entry's kind (a crash without a type); an indexed name that yields a kind had an integer index closed by `]` and has its entry's element kind. |
| `Typing4.CastKindRules` | 4/parse.c:751-771 | With no type parsed a cast crashes at once; it is ERROR only by crashing; when it yields a kind that is the keyword's standard kind, the operand is of a standard kind and the cast was parenthesised. |
| `Typing4.FactorKindRules` | 4/parse.c:718-777 | A token no factor starts with is ERROR with nothing consumed; a constant has its token's standard kind and crashes exactly when no type was parsed; `( e )` that yields a kind has `e`'s kind and was closed; `not f` that yields a kind is boolean and is `f`, and `not` over a non-boolean factor is ERROR. |
| `Typing4.TermRestRules` | 4/parse.c:636-652 | The term loop yields only ERROR, TPRERROR or the kind it started with, stops a kind before a token that is no multiplying operator, and fails when an operator does not fit that kind. |
| `Typing4.TermKindRules` | 4/parse.c:632-655 | A first factor in error makes the term ERROR; a term that yields a kind has its first factor's kind; `and` after a non-boolean or `*`/`div` after a non-integer first factor makes the term fail. |
| `Typing4.SimpleRestRules` | 4/parse.c:680-692 | The add loop yields only ERROR, TPRERROR or the kind it started with, stops before a token that is no adding operator, and a term not of its operator's kind (boolean after `or`, integer after `+`/`-`) is ERROR. |
| `Typing4.SimpleKindRules` | 4/parse.c:662-694 | A simple expression that yields a kind has its first term's kind; a signed one is integer, and a sign before a term of another kind is ERROR. |
| `Typing4.ExprRestRules` | 4/parse.c:705-709 | Without a relational operator the loop yields the kind it started with and consumes nothing; after one, a kind yielded is boolean; it stops before a token that is no relational operator. |
| `Typing4.ExprKindRules` | 4/parse.c:701-711 | An expression without a relational operator is its simple expression; with one, a kind yielded is boolean whatever the operands' kinds. |
| `Typing4.ArgsFrom` | 4/parse.c:870-899 | The argument list of `parseCall` read against the parameter kinds left: the cursor moves forward within the list, a crash does not pass, and the tables stay well formed. |
| `Typing4.ReadVarsFrom` | 4/parse.c:950-961 | The variable list of `parseInput`, with the same bounds. |
| `Typing4.ArgsFromKeeps` | 4/parse.c:870-899 | The argument kinds read before the list stay in front of the kinds it reports. |
| `Typing4.ArgsFromRules` | 4/parse.c:870-899 | Every argument but the last one compared has its parameter's kind; a list that passes read at least one argument, its kinds are the first parameter kinds in order, and it ends at a token other than a comma. |
| `Typing4.AssignKind` | 4/parse.c:784-793 | The assignment's typing: NORMAL or ERROR, with the cursor bounds and the tables kept well formed. |
| `Typing4.FormatKind` | 4/parse.c:973-990 | One output format's typing: NORMAL or ERROR, with the cursor bounds and the tables kept well formed. |
| `Typing4.FormatsFrom` | 4/parse.c:1005-1010 | The format list's typing, NORMAL or ERROR. |
| `Typing4.FormatsAfter` | 4/parse.c:1007-1010 | The rest of the list after a format that passed, NORMAL or ERROR. |
| `Typing4.AssignKindRules` | 4/parse.c:784-793 | An assignment passes exactly when `:=` stands between a variable and an expression neither of which is TPRERROR; their kinds are never compared. |
| `Typing4.UnclosedParenthesis` | 4/parse.c:727-744 | `( NUMBER ;` is typed ERROR without a crash: the missing `)` is reported but the kind is not TPRERROR. |
| `Typing4.AssignmentPassesUnclosedOperand` | 4/parse.c:784-793 | So `x := ( 1 ;` with `x` a variable is a NORMAL assignment although its operand was reported. |
| `Typing4.FormatKindRules` | 4/parse.c:973-990 | A long string passes as one token; otherwise the format passes exactly when the expression has a kind other than TPRERROR and a `:` after it is followed by a number, and it ends after that number. |
| `Typing4.FormatsRules` | 4/parse.c:1005-1010 | A list that passes starts with a format that passes and ends at a token other than a comma; a first format that fails is the list's result. |
| `Typing4.ReadVarsRules` | 4/parse.c:950-961 | Every variable but a failing last one is integer or char; a list that passes read at least one variable, all integer or char, and ends at a token other than a comma. |
| `Parse03.Parse` | 03/parse.c:1091-1100 | `parse` succeeds only on `program NAME ;`, a first token other than `program` is an error, and the global cross-reference table is printed whatever the result. |
| `Parse03.Parser.constructor` | 03/parse.c:1093-1096 | `cur` at the first token, an empty global table current, no procedure, an empty name stack, no type, nothing printed. |
| `Parse03.Parser.Consume` | 03/parse.c:345-349 | `consumeToken` moves `cur` on by one; stepping past the EOF token leaves it NULL, and the next access crashes. |
| `Parse03.Parser.LookupAndAddIref` | 03/parse.c:156-167 | The parser's tables change as `Symbols.LookupAndAddIref` says. |
| `Parse03.Parser.EnterScope` | 03/parse.c:232-236 | A fresh local table becomes current. |
| `Parse03.Parser.PrintCrossreferenceTable` | 03/parse.c:206-226 | The rows printed are the table's entries, bucket by bucket and each chain from its head. |
| `Parse03.Parser.ExitScope` | 03/parse.c:244-250 | `exitScope` prints the local table, forgets the procedure name and makes the global table current again. |
| `Parse03.Parser.ParseType` | 03/parse.c:433-464 | `parseType` accepts exactly a standard type or `array [ NUMBER ] of` standard type (any size), consumes 1 or 6 tokens and sets `type` to the record the type denotes. |
| `Parse03.Parser.ParseVarNames` | 03/parse.c:471-488 | `parseVarNames` pushes exactly the names of `NAME {, NAME}` with their lines and fails on a missing name. |
| `Parse03.Parser.ProcessVarNameStack` | 03/parse.c:490-506 | The stacked names are declared into the current table as `DeclareVars` says and the stack is emptied; the program stops exactly when a name was declared before. |
| `Parse03.Parser.EndVarGroup` | 03/parse.c:527-529 | A group's `;` is required; the names are declared and it is consumed. |
| `Parse03.Parser.ParseVarGroup` | 03/parse.c:520-529 | One `names : type ;` group. |
| `Parse03.Parser.ParseVarDeclaration` | 03/parse.c:513-547 | `var` then one or more groups, ending before a token that is not a name. |
| `Parse03.Parser.ParseTerm` | 03/parse.c:554-563 | `factor {mul-op factor}`, ending before a token that is not a multiplying operator. |
| `Parse03.Parser.ParseSimpleExpression` | 03/parse.c:570-581 | `[+|-] term {add-op term}`, ending before a token that is not an adding operator. |
| `Parse03.Parser.ParseExpression` | 03/parse.c:588-597 | `simple {rel-op simple}`, ending before a token that is not a relational operator. |
| `Parse03.Parser.ParseConstant` | 03/parse.c:616-628 | A constant's kind overwrites the kind of the last type parsed; without one the program crashes. |
| `Parse03.Parser.ParseFactor` | 03/parse.c:604-656 | A token no factor starts with is an error with nothing consumed; a constant crashes without a previous type; a cast writes the keyword's token id into the type and reports but consumes missing parentheses. |
| `Parse03.Parser.ParseVar` | 03/parse.c:759-773 | `NAME [ [ expression ] ]`: the reference is recorded when the name is found, and an unknown name is no error. |
| `Parse03.Parser.ParseAssignment` | 03/parse.c:663-672 | `variable := expression`, at least three tokens. |
| `Parse03.Parser.ParseCondition` | 03/parse.c:679-701 | `if expression then statement [else statement]`. |
| `Parse03.Parser.ParseIteration` | 03/parse.c:708-718 | `while expression do statement`; the iteration level is raised and never lowered again. |
| `Parse03.Parser.ParseExpressionList` | 03/parse.c:743-749 | `expression {, expression}` up to and including the closing `)`. |
| `Parse03.Parser.ParseCall` | 03/parse.c:725-752 | The callee must be a procedure other than the one being parsed; the arguments are not checked against the parameters. |
| `Parse03.Parser.ParseInput` | 03/parse.c:780-796 | `read`/`readln` with optional variables. |
| `Parse03.Parser.ParseOutputFormat` | 03/parse.c:803-815 | A string of length other than 1, or an expression optionally followed by `: NUMBER`. |
| `Parse03.Parser.ParseOutputStatement` | 03/parse.c:822-839 | `write`/`writeln` with optional formats. |
| `Parse03.Parser.ParseStatement` | 03/parse.c:846-897 | A token no statement starts with is the empty statement and changes nothing; `break` is an error exactly when no loop was entered. |
| `Parse03.Parser.ParseCompoundStatement` | 03/parse.c:904-923 | `begin statement {; statement} end`, ending right after `end`. |
| `Parse03.Parser.RegisterProcedureParameters` | 03/parse.c:932-941 | Succeeds exactly when the current procedure has a global entry with a type, which then gets the parameter list; otherwise nothing changes. |
| `Parse03.Parser.DeclareParameterGroup` | 03/parse.c:968-985 | Each stacked name gives one parameter node of the group's kind; names not yet in the local table are entered as parameters. |
| `Parse03.Parser.ParseParameterGroup` | 03/parse.c:957-985 | One group adds its type's kind once per name, in source order. |
| `Parse03.Parser.ParseParameterGroups` | 03/parse.c:956-987 | The kinds collected are one per formal name in source order, each its group's type. |
| `Parse03.Parser.ParseFormalParameters` | 03/parse.c:948-996 | `( groups )`, then the procedure's global entry gets the parameter list built from those kinds. |
| `Parse03.Parser.ParseProcedureHead` | 03/parse.c:1005-1024 | A local scope is entered and the procedure is entered into the global table (replacing an entry of that name) and becomes current; the result of the formal parameters is not checked. |
| `Parse03.Parser.ParseSubProgram` | 03/parse.c:1003-1036 | The head, then `[var-declaration] compound-statement ;`; on success the local table is printed and left. |
| `Parse03.Parser.ParseBlock` | 03/parse.c:1043-1059 | Declarations and procedures, then the compound statement, ending after `end`. |
| `Parse03.Parser.ParseProgram` | 03/parse.c:1066-1084 | Success means exactly `program NAME ; block .` was read. |
| `Parse2.Parse` | 2/parse.c:739-743 | `parse` returns NORMAL only for a program that starts `program NAME ;`; a first token other than `program` is an error. |
| `Parse2.Parser.constructor` | 2/parse.c:739-743 | `cur` at the first token, indent and iteration levels 0, not at the beginning of a line. |
| `Parse2.Parser.PrintIndent` | 2/parse.c:60-69 | `printIndent` stops the program exactly when the indent level is negative. |
| `Parse2.Parser.Consume` | 2/parse.c:103-107 | `consumeToken` prints the token and moves `cur` on by one; stepping past the EOF token crashes. |
| `Parse2.Parser.ParseType` | 2/parse.c:189-212 | `parseType` accepts exactly a standard type or `array [ NUMBER ] of` standard type, consuming 1 or 6 tokens. |
| `Parse2.Parser.ParseVarNames` | 2/parse.c:219-230 | `NAME {, NAME}` as far as the commas go; the first missing name is an error without a message. |
| `Parse2.Parser.ParseVarGroup` | 2/parse.c:244-252 | One `names : type ;` group. |
| `Parse2.Parser.ParseVarDeclaration` | 2/parse.c:237-269 | `var` then one or more groups; the indent level is raised by two and restored on success, and stays raised after an error. |
| `Parse2.Parser.ParseTerm` | 2/parse.c:276-285 | `factor {mul-op factor}`, ending before a token that is not a multiplying operator; a token no factor starts with is an error with nothing consumed. |
| `Parse2.Parser.ParseSimpleExpression` | 2/parse.c:292-303 | `[+|-] term {add-op term}`, ending before a token that is not an adding operator. |
| `Parse2.Parser.ParseExpression` | 2/parse.c:310-319 | `simple {rel-op simple}`, a chain of comparisons accepted, ending before a token that is not a relational operator. |
| `Parse2.Parser.ParseFactor` | 2/parse.c:326-366 | A token no factor starts with is an error with nothing consumed; a cast's parentheses are reported when missing but consumed whatever they are. |
| `Parse2.Parser.ParseVar` | 2/parse.c:460-472 | `NAME [ [ expression ] ]`. |
| `Parse2.Parser.ParseAssignment` | 2/parse.c:373-382 | `variable := expression`, at least three tokens. |
| `Parse2.Parser.ParseBranch` | 2/parse.c:396-400 | A branch is indented one level further unless it is a compound statement, and the level is restored after it. |
| `Parse2.Parser.ParseCondition` | 2/parse.c:389-411 | `if expression then statement [else statement]`, leaving the indent level as it was. |
| `Parse2.Parser.ParseIteration` | 2/parse.c:418-428 | `while expression do statement`; the iteration level is raised and never lowered again. |
| `Parse2.Parser.ParseExpressionList` | 2/parse.c:444-450 | `expression {, expression}` up to and including the closing `)`. |
| `Parse2.Parser.ParseCall` | 2/parse.c:435-453 | `call NAME` alone, or followed by a parenthesised expression list. |
| `Parse2.Parser.ParseInput` | 2/parse.c:479-495 | `read`/`readln` alone, or followed by a parenthesised variable list. |
| `Parse2.Parser.ParseOutputFormat` | 2/parse.c:502-514 | A string of length other than 1, or an expression optionally followed by `: NUMBER`; a one-character string goes through the expression case. |
| `Parse2.Parser.ParseOutputStatement` | 2/parse.c:521-538 | `write`/`writeln` alone, or followed by a parenthesised format list. |
| `Parse2.Parser.ParseStatement` | 2/parse.c:545-596 | A token no statement starts with is the empty statement and consumes nothing; `break` is an error exactly when no loop was entered. |
| `Parse2.Parser.ParseCompoundStatement` | 2/parse.c:603-622 | `begin statement {; statement} end`; the statements are indented one level deeper and the level is restored. |
| `Parse2.Parser.ParseParameterSection` | 2/parse.c:634-639 | One `names : type` section; any non-zero result of `parseVarNames` or `parseType` is an error. |
| `Parse2.Parser.ParseFormalParameters` | 2/parse.c:629-655 | `( section {; section} )`. |
| `Parse2.Parser.ParseSubProgram` | 2/parse.c:662-684 | `procedure NAME [params] ; [var-declaration] compound ;`, leaving the indent level at 0; the formal parameters' result is not checked. |
| `Parse2.Parser.ParseBlock` | 2/parse.c:691-707 | Declarations and procedures, then the compound statement. |
| `Parse2.Parser.ParseProgram` | 2/parse.c:714-732 | Success means exactly `program NAME ; block .` was read. |
| `Chars.NatToString` | 4/codegen.c:340 | `%d` prints a non-empty run of digits with no leading zero. |
| `Chars.DecimalValueOfNatToString` | 4/codegen.c:314-326 | Reading back the digits that `%d` printed (as `getArraySize` does with `atoi`) gives the same number again. |
| `Chars.ZeroPad` | 4/codegen.c:306-310 | `%0*d` pads with zeros to at least the width, and the digits of the number end the text. |
| `Chars.BeforeIrreflexive` | 4/parse.c:256 | No key sorts strictly before itself under `strcmp`. |
| `Chars.BeforeTransitive` | 4/parse.c:256 | The `strcmp` order is transitive. |
| `CodeGen.LabelsDistinct` | 4/codegen.c:300-310 | Distinct numbers from `getLabelNum` are printed as distinct labels in both spellings. |
| `CodeGen.LabelTextsMeet` | 4/codegen.c:306-310 | A `genLabel` line (`L%03d`) spells the label a jump (`L%04d`) names exactly when the two numbers are equal and at least 1000. |
| `CodeGen.TabLineIsNoLabel` | 4/codegen.c:308-310 | An instruction line begins with a tab, so it never defines a label. |
| `CodeGen.DefinesIsTextual` | 4/codegen.c:306-310 | A line defines a jump's label exactly when its printed text equals the jump operand. |
| `CodeGen.RelJumpsFire` | 4/codegen.c:662-685 | The one or two conditional jumps printed for each relational operator fire, on the flags of `left - right`, exactly when the relation holds. |
| `CodeGen.RelationExits` | 4/codegen.c:686-690 | After the jumps, the block reaches its end with 1 in GR1 from `label1` and with 0 by falling through. |
| `CodeGen.RelationComputes` | 4/codegen.c:659-690 | The code after a relation's right operand leaves 1 in GR1 exactly when the relation holds between the two operands, and 0 otherwise. |
| `CodeGen.StoreBooleanRuns` | 4/codegen.c:445-456 | `genStoreBoolean` would normalise GR1 to 0 or 1, but its jumps only reach their labels for label numbers of 1000 or more; below that the jump goes to an undefined label. |
| `CodeGen.StoreBoolean` | 4/codegen.c:445-456 | The seven lines `genStoreBoolean` prints: `CPA GR1,GR0` and `JZE` to `labelTrue`, `LAD GR1,1` and `JUMP` to `labelEnd`, the `labelTrue` line, `LAD GR1,0` and the `labelEnd` line. |
| `CodeGen.StoreBooleanZero` | 4/codegen.c:453-455 | After the `labelTrue` line, 0 is loaded and the block ends. |
| `CodeGen.StoreBooleanNonZero` | 4/codegen.c:451-452 | Falling through the `JZE`, 1 is loaded and the jump to `labelEnd` leaves the block when that label is defined. |
| `CodeGen.CastCode` | 4/codegen.c:507-566 | A cast accepts exactly an integer, char or boolean operand; a cast to the operand's own type prints nothing; a cast to or from boolean prints `genStoreBoolean`. |
| `CodeGen.ReadCall` | 4/codegen.c:744-768 | `genRead` prints exactly one call for an integer or char and nothing otherwise (`canReadType`). |
| `CodeGen.WriteCall` | 4/codegen.c:802-818 | `genWrite` prints exactly one call for an integer, boolean or char and nothing otherwise. |
| `CodeGen.IndexCheckBounds` | 4/codegen.c:407-412 | The two jumps to EROV let exactly the indices 0 to size-1 through. |
| `CodeGen.StorageOf` | 4/codegen.c:338-347 | An array record reserves a block (`DS`) and any other record a word (`DC 0`), under the record's label; an array whose type text has no readable size has no storage. |
| `CodeGen.StorageOfTypeText` | 4/codegen.c:312-326 | For the type texts the cross-reference listing prints (4/parse.c:242), `array[n]of...` reserves n words and `integer`, `char`, `boolean` one word. |
| `CodeGen.ParamEntryShape` | 4/codegen.c:975-987 | The entry code pops the return address into GR2, stores the pushed arguments into the parameters from last to first with a `POP` between stores, and pushes the return address back. |
| `CodeGen.StoresShape` | 4/codegen.c:980-985 | The store loop prints one `ST` per parameter label, last label first, with a `POP GR1` between stores. |
| `CodeGen.ProcLabel` | 4/codegen.c:973 | The procedure's line is the label of the record whose key is the procedure's name, or "(null)" when there is no such record. |
| `CodeGen.Generate` | 4/codegen.c:1031-1044 | `codegen`: a cross-reference text that cannot be split crashes; a first token other than `program` is an error with nothing printed; on success the START line comes first and the runtime library last. |
| `CodeGen.Generator.constructor` | 4/codegen.c:1033-1035 | The cursor is at the first token, there is no procedure name, the parameter stack is empty, the label counter is 1 and nothing has been printed. |
| `CodeGen.Generator.Consume` | 4/codegen.c:70 | `consumeToken` moves one token on; stepping past the EOF token crashes. |
| `CodeGen.Generator.Emit` | 4/codegen.c:41-48 | `println` appends one line to the output. |
| `CodeGen.Generator.EmitAll` | 4/codegen.c:41-48 | Consecutive `println`s append their lines in order. |
| `CodeGen.Generator.GetLabelNum` | 4/codegen.c:300-304 | Returns the counter and then increments it. |
| `CodeGen.Generator.GenStoreBoolean` | 4/codegen.c:445-456 | Takes two fresh labels and prints the `genStoreBoolean` block for them. |
| `CodeGen.Generator.LookupVar` | 4/codegen.c:389-400 | Inside a procedure, the scoped record first and then the global one; outside, the global one. |
| `CodeGen.Generator.ParseIndex` | 4/codegen.c:402-416 | On success the record is an array with a readable size, `]` closes the index, and the output is the index code followed by the range check and the address computation. |
| `CodeGen.Generator.ParseVar` | 4/codegen.c:387-424 | An undefined name inside a procedure is an error with nothing consumed. A plain variable prints `LD GR1,label` and succeeds exactly when it has a record. An indexed one prints the range check. The kind is always NORMAL or ERROR. |
| `CodeGen.Generator.EmitCast` | 4/codegen.c:507-566 | Prints `CastCode` and gives the target's kind, or ERROR with nothing printed for an operand kind the cast refuses. |
| `CodeGen.Generator.ParseCast` | 4/codegen.c:500-571 | `integer` followed by `(` is an error, as written (the test is inverted). A refused operand kind is an error too. On success the kind is the target's kind, `)` closes the cast, and the output is the operand then the cast code. |
| `CodeGen.Generator.ParseFactor` | 4/codegen.c:458-577 | A token no factor starts with is an error with nothing consumed or printed. Numbers, `true`, `false` and strings each print their one `LAD`. `not` ends with `XOR GR1,GR1`. A name yields the integer kind or an error. |
| `CodeGen.Generator.ParseMulStep` | 4/codegen.c:586-601 | One turn of the loop: the kind is the operator's kind (boolean for `and`, integer otherwise), and the output ends with the operator's code. |
| `CodeGen.Generator.ParseTerm` | 4/codegen.c:578-605 | Factors joined by multiplying operators. It stops before a token that is no multiplying operator, its kind is the last operator's kind (or the first factor's), and it ends with `JOV EOVF`. |
| `CodeGen.Generator.ParseAddStep` | 4/codegen.c:623-638 | One turn of the loop: the kind is boolean for `or` and integer otherwise. |
| `CodeGen.Generator.ParseSimpleExpression` | 4/codegen.c:606-641 | Terms joined by adding operators, stopping before a token that is no adding operator. A leading minus prints `LAD GR2,1`, `XOR GR1,GR1`, `ADDA GR1,GR2` after the first term. |
| `CodeGen.Generator.EmitRelJumps` | 4/codegen.c:662-685 | Prints the conditional jumps of the operator. |
| `CodeGen.Generator.GenRelation` | 4/codegen.c:653-690 | Takes two fresh labels, then prints the right operand and the comparison block for the operator. |
| `CodeGen.Generator.ParseExpression` | 4/codegen.c:643-693 | A simple expression always followed by `PUSH 0,GR1`, then relations; any relation makes the kind boolean; it stops before a non-relational operator. |
| `CodeGen.Generator.ParseAssignment` | 4/codegen.c:426-443 | The output is the left side, `PUSH 0,GR1`, the right side, `POP GR2`, `ST GR1,0,GR2`. A plain variable on the left is loaded with `LD`, not its address, as written. |
| `CodeGen.Generator.ParseCondition` | 4/codegen.c:695-719 | A token other than `if` is an error with nothing consumed. On success the output is the condition, `CPA GR1,GR0`, `JZE label1`, the then branch, and with `else` a `JUMP label2`, label1, the else branch and label2; otherwise label1. |
| `CodeGen.Generator.ParseBranches` | 4/codegen.c:705-717 | The then branch followed by the else part or the lone label line, with a fresh label2 above label1. |
| `CodeGen.Generator.ParseIteration` | 4/codegen.c:721-735 | The output is label1, the condition, `CPA GR1,GR0`, `JZE label2`, the body and `JUMP label1`; no line defines label2. |
| `CodeGen.Generator.ParseCall` | 4/codegen.c:737-742 | Consumes `call` alone and prints nothing; any other token is an error. |
| `CodeGen.Generator.GenRead` | 4/codegen.c:755-768 | Prints `ReadCall` of the kind. |
| `CodeGen.Generator.ReadVariable` | 4/codegen.c:782-786 | On success the variable's kind is integer and the last line is `CALL READINT`, or `CALL READLINE` for `readln`. |
| `CodeGen.Generator.ParseInput` | 4/codegen.c:770-800 | Without `(` only `readln` prints `CALL READLINE`; with a list every variable is read as an integer and the list closes with `)`. |
| `CodeGen.Generator.GenWrite` | 4/codegen.c:802-818 | Prints `WriteCall` of the kind. |
| `CodeGen.Generator.ParseOutputFormat` | 4/codegen.c:820-843 | A string prints its `WRITESTR` block. Otherwise the output is the expression, `LAD GR2,width` when a width follows, and the write call of its kind. |
| `CodeGen.Generator.ParseOutputStatement` | 4/codegen.c:845-867 | Without `(` only `writeln` prints `CALL WRITELINE`; with a list `writeln` prints it once after the list, and success means `)` closed it. |
| `CodeGen.Generator.ParseStatement` | 4/codegen.c:869-924 | A token no statement starts with is the empty statement. `break` and `call` consume one token and print nothing. `return` prints RET inside a procedure, and the flush and `SVC 0` outside one. |
| `CodeGen.Generator.ParseCompoundStatement` | 4/codegen.c:926-942 | A token other than `begin` is an error with nothing consumed. On success `end` was read and the last line is `RET`. |
| `CodeGen.Generator.DeclareSymbol` | 4/codegen.c:338-347 | Prints the record's storage, pushing its label for a parameter; an array whose size does not read crashes. |
| `CodeGen.Generator.DeclareName` | 4/codegen.c:332-347 | Declares the record of the (scoped) name at the cursor; a name with no record crashes. |
| `CodeGen.Generator.DeclareNextName` | 4/codegen.c:350-366 | Steps over the comma and declares the name behind it without moving past it. |
| `CodeGen.Generator.DeclareAfterCommas` | 4/codegen.c:349-367 | The loop stops at a non-comma. Over `, NAME` it declares exactly that one name and stays on it, unless the name token is itself a comma. |
| `CodeGen.Generator.DeclareRest` | 4/codegen.c:348-367 | Over the first name, then the comma loop: no more names without a comma, exactly one after `, NAME`. |
| `CodeGen.Generator.ParseVarNames` | 4/codegen.c:328-369 | Declares the first name and, after a comma, the next one only. The output is their storage lines, and their labels are pushed for parameters. |
| `CodeGen.Generator.SkipUntil` | 4/codegen.c:375 | Skips exactly the tokens that are neither of the two ids and stops at one that is. |
| `CodeGen.Generator.ParseDeclarationLine` | 4/codegen.c:379-381 | The names `pVarNames` declares, then up to and over the `;`. |
| `CodeGen.Generator.ParseDeclarationLines` | 4/codegen.c:378-382 | Declaration lines while a line starts with a name. |
| `CodeGen.Generator.ParseVarDeclaration` | 4/codegen.c:371-385 | `var` and declaration lines; the output is their storage lines, no parameter is pushed, and it stops at a non-name after a `;`. |
| `CodeGen.Generator.ParseParameterGroup` | 4/codegen.c:958-959 | One group's declared names, labels pushed, stopping at `;` or `)`. |
| `CodeGen.Generator.ParseParameterList` | 4/codegen.c:949-960 | Groups up to and over the `)`, their labels pushed in order. |
| `CodeGen.Generator.ParseFormalParameters` | 4/codegen.c:944-963 | A missing `(` or a missing first name is an error with nothing printed; otherwise the groups are declared as parameters and their labels pushed. |
| `CodeGen.Generator.GenParameterEntry` | 4/codegen.c:975-987 | Empties the parameter stack and prints `ParamEntry` of it. |
| `CodeGen.Generator.ParseProcName` | 4/codegen.c:966-970 | The name becomes `procname`, and any formal parameters are declared. |
| `CodeGen.Generator.ParseProcHeading` | 4/codegen.c:966-972 | The name, the formal parameters and the local variables, each declared in that order. |
| `CodeGen.Generator.ParseProcEnd` | 4/codegen.c:989-993 | The body, then success exactly with the `;`, which clears `procname`. |
| `CodeGen.Generator.ParseProcBody` | 4/codegen.c:973-993 | The procedure's label line, the entry code for the whole parameter stack, then the body; the stack is left empty. |
| `CodeGen.Generator.ParseSubProgram` | 4/codegen.c:964-994 | The output is the formals' and locals' storage, the procedure label, the entry code and the body. `procname` is cleared on success and stays set after an error. |
| `CodeGen.Generator.ParseBlockEntry` | 4/codegen.c:999-1003 | One declaration or procedure; the output only grows. |
| `CodeGen.Generator.ParseBlock` | 4/codegen.c:996-1013 | Declarations and procedures, then `LAD GR0,0` and the main compound statement, whose last line is `RET` on success. |
| `CodeGen.Generator.ParseProgram` | 4/codegen.c:1015-1029 | Without `program` it is an error with nothing printed. Otherwise it succeeds with the START line, the block's declarations, `LAD GR0,0` and the main statement. |

## Left out

- File and console I/O (reading the source file, `init_scan`/`end_scan`, opening the output file, `main`): the scanners take the file as a character sequence, and the code generator's output is a sequence of lines.
- Error printing (`error`, the messages and their line numbers): the parsers record the kind of each diagnostic, and a run that ends with `exit(1)` is a `halted` state.
- Memory management (`malloc`, `free`, `realloc`, `freeHashMap`, `freeType`'s `is_freed` flag, the frees of `release_idtab`): values are modelled abstractly. `HashMap.HashMap.Free` only empties the map.
- The pretty printer of 4/parse.c and 03/parse.c, which `printToken` switches off by returning at once. In 2/parse.c the printed text of `printToken` and `printIndent` is left out, and so are `at_bol` spacing and the newlines. Only the counters that decide control flow are kept.
- `outlib`, the runtime library text of 4/codegen.c: `Generate` takes it as the parameter `runtime` and appends it unchanged.
- The cross-reference text and its line count come from `getCrossrefBuf`, which is not part of this model. `Generate` takes them as parameters. The `printf` of that text to standard output in `codegen` is left out.
- The rows of the cross-reference listing are modelled as entries in printing order; their column layout is left out.
- The `key[]` table of 1/scan.c is declared `extern` and defined in no file of this model. `Scan1.Scanner` takes it as a constructor parameter.
- 4/codegen.c calls `isMulOp()`, `isAddOp(cur->id)` and `isRelOp(cur->id)` but defines none of them; the functions of those names in 4/parse.c are `static` and test the current token. The model takes all three as tests of the current token (`Lpp.IsMulOp`, `Lpp.IsAddOp`, `Lpp.IsRelOp`).
- Output printed after a crash is not described: once `halted` is set, contracts say nothing more about `out`.
- `getSymbol` walks the record array without a bound when no key matches (4/codegen.c:31-39). The model returns the null record there.
- `getArraySize` copies the size text into a 64-byte buffer without a bound (4/codegen.c:314-326). The model treats a text of 64 characters or more as a failure instead of modelling the overflow.
- `strcpy` of a name into the 256-byte `key` in `pVarNames` and `pVar` is unbounded. The model keeps the whole name, while `snprintf` cuts the scoped key to 255 characters as written.
- Scan02.DigitLoop: `readNumber` copies every digit into `string_attr` (`MAXSTRSIZE` bytes) with no bound (02/scan.c:240, 249). A run of `MAXSTRSIZE` digits or more whose value stays within `MAXNUM` (leading zeros) overflows that buffer in C; the model keeps the whole run.
- Scan02.Tokenizer.ReadNumber: the same unbounded copy into `string_attr` is not modelled; the token carries the whole digit run.
- Scan02.BlockEnd: when a `*` is the last character of the buffer inside a `/*` comment, `*(p++) == '/'` reads the terminating NUL and steps past it (02/scan.c:331-338), so C goes on reading beyond the buffer. The model reads NUL at every position past the end (`CharAt`), so the comment ends the list with EOF as an unterminated one.
- The string literal buffer of the top-level scan.c has no length check. The model keeps the whole literal and does not model the overflow.
- `num_attr` and `atoi` work on C `int`s. The scanners stop before `MAXNUM` is exceeded, so no wrap-around occurs there. `getArraySize`'s `atoi` of up to 63 digits is modelled on unbounded integers, so its overflow is not modelled.
- The redeclaration path of `processVarNameStack` in 03/parse.c dereferences NULL. The model records it as `halted` and states nothing about its output.
- 03/parse.c uses `TPRINT` at lines 100, 132, 195 and 617: `decodeIDtoTYPEKIND` and `decodeTYPEKINDtoID` pair it with `integer`, `printType` prints it, and a number constant gets it as its type. No header in this model defines `TPRINT`, so the model uses `TPINT`, the integer kind it evidently names.
- Stepping past the EOF token makes `cur` NULL in C. The model sets `halted` and never reads beyond the list.
- The positions the scanners leave after a number or string error are not stated.
- 02/parse.c and 02/print.c are output-only stubs; their token printing is not part of this model.
- Properties the code does not deliver are modelled as the code behaves and stated that way. `genLabel` prints `L%03d` while jumps name `L%04d` (`CodeGen.LabelTextsMeet`). `while` never prints its exit label (`CodeGen.Generator.ParseIteration`). `iteration_level` is never decremented. There is one `JOV` per term. `pExpression`'s extra `PUSH 0,GR1` is kept as written.
- The statement and expression productions of 2/parse.c and 03/parse.c state the first and last tokens they read, the progress of the cursor and the counters, not the whole token language each accepts. The program shape is stated in full by `Parse2.Parser.ParseProgram` and `Parse03.Parser.ParseProgram`. Each of the following states only its boundary tokens:
- Parse2.Parser.ParseInput: only the boundary tokens.
- Parse2.Parser.ParseOutputStatement: only the boundary tokens.
- Parse2.Parser.ParseBlock: only the boundary tokens.
- Parse2.Parser.ParseVar: only the boundary tokens.
- Parse03.Parser.ParseInput: only the boundary tokens.
- Parse03.Parser.ParseOutputStatement: only the boundary tokens.
- Parse03.Parser.ParseBlock: only the boundary tokens.
- Parse03.Parser.ParseVar: only the boundary tokens.
- Parse03.Parser.ParseTerm: only the boundary tokens.
- CodeGen.Generator.ParseExpression: states the `PUSH 0,GR1` after the first simple expression and the result kind, not the whole sequence of relation blocks that follows; each block is stated by `CodeGen.Generator.GenRelation`.
- CodeGen.Generator.ParseTerm: states the result kind and the closing `JOV EOVF`, not every operator's code; one turn is stated by `CodeGen.Generator.ParseMulStep`.
- CodeGen.Generator.ParseSimpleExpression: states the result kind and the code of a leading minus, not every operator's code.
- CodeGen.Generator.ParseMulStep: states the operator's last instruction, not the `PUSH`/`POP` around the factor.
- CodeGen.Generator.ParseAddStep: states the result kind only, not the printed lines.
- CodeGen.Generator.ParseInput: states the last line of a variable list, not every read call.
- CodeGen.Generator.ParseOutputStatement: states the `WRITELINE` line and the closing `)`, not each format's lines; one format is stated by `CodeGen.Generator.ParseOutputFormat`.
- CodeGen.Generator.ParseCompoundStatement: states the closing `RET`, not the statements' lines.
- CodeGen.Generator.ParseStatement: states the output of the empty statement, `break`, `call` and `return`; the other statements' lines are stated by their own productions.
- CodeGen.Generator.ParseSubProgram: the body's lines are not tied to what the compound statement prints (for instance that they end with `RET`).
- CodeGen.Generator.ParseProcEnd: the body's lines are not tied to what the compound statement prints.
- CodeGen.Generator.ParseBlockEntry: states only that the output grows.
- CodeGen.Generate: states the first and the last lines of the output, not the lines in between.
