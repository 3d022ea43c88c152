# LDES TREE-profile vs Jelly benchmark: a verified model of its core

`ldes_tree_vs_jelly_benchmark.py` generates a dataset of members, each with a
list of quads in its own named graph. It writes the dataset twice:

- as a TREE-profile page, which is N-Quads lines grouped by `tree:member` markers;
- as a Jelly file.

It then reads both back in batches of 100 members and reports per-batch
member counts, quad counts and times.

This project models the deterministic core of that program in Dafny:

- **Terms** — `term_to_nq`: how an IRI, an `xsd:integer` literal, a
  language-tagged literal or a plain literal is written. Any other term is
  an error (`TermError`). The `int()` conversion of an integer literal's
  lexical form is modelled in **Text** (`ParseInteger`), together with
  `str.strip()`, `startswith` and `endswith`.
- **ProfileWriter** — `write_tree_profile_page_gz`:
  - `ProfilePage` is the reference function;
  - `WriteProfilePage` / `WriteMemberQuads` are the nested writing loops,
    proved against it.
  - A page is 8 fixed hypermedia lines. Then, per member in key order,
    there is one marker line `<COLL> <tree:member> <m> .` and one line per
    quad.
- **Batches** — the `BatchStat` record (`batch_index`, `members_in_batch`,
  `quads_in_batch`, `seconds`) and its sums. `Full(g, b)` is the number of
  full batches after `g` members, and `FirstOpen(g, b)` is where the open
  batch starts.
- **Sums** — `SumOf` over a sequence of sizes, and `RecordsReport`: every
  batch record reports the sum of the sizes at its own members' positions.
  The TREE and the Jelly batch laws both state their quad counts this way.
- **ProfileParser** — `parse_tree_profile_batches` with its nested
  `flush_batch`:
  - the class `ParserState` holds the variables the function and its closure
    share;
  - `ReadLine` is one iteration of the `for line in f` loop;
  - `FlushBatch` is `flush_batch`;
  - `Finish` is the final flush.
  - `ParseTreeProfileBatches` runs them over a sequence of lines and is
    proved equal to the reference description `TreeBatches` / `BatchesOf`.
    That description says, in terms of marker positions, which lines each
    batch counts.
- **TreeBatchLaws** — what `BatchesOf` implies: member totals, batch numbering,
  ⌈G/B⌉ batches, no batches without markers, and the quad total.
- **QuadAttribution** — which member's quads each batch reports when
  the parser reads a page laid out as the writer lays it out, both as
  written and as evidently intended (see Findings).
- **PageReading** — the writer and the parser composed:
  - every preamble line is read as a quad line before the first marker;
  - every marker as a marker;
  - every member quad (its subject a member IRI) as a quad line.

  So reading a written page back from its text stream (see LineStream)
  yields the as-written attribution, provided no member IRI or term string
  holds a line break.
- **LineStream** — the text between the writer and the parser. The writer
  adds `"\n"` after every line (`WrittenText`). The parser's `for line in f`
  reads in universal-newline mode: it ends a line at `"\n"`, `"\r"` or
  `"\r\n"` and yields each line with its terminator turned into `"\n"`
  (`ReadLines`). A written line with no line
  break of its own comes back as one line and is classified as written; a
  line holding a break is split. The page round trip goes through this stream.
- **JellyBatches** — the batching loop of `parse_jelly_batches` over the
  sizes `len(g)` of the graphs `ds.contexts()` yields. It is proved against `JellyBatchesOf`,
  with the `(-1, 0, 0, load_time)` record put first.
- **Summary** — the figures `summarize` reports:
  - the load time;
  - totals over the records after the load record;
  - throughput only when the time is positive;
  - a sample of the first three batches.

Time is modelled as a clock function `clock: nat -> real` of the position in
the stream at which `time.perf_counter()` is read:

- in the TREE parser, `2i` when the timer starts at line `i`, `2i + 1`
  when a flush at line `i` takes its reading, and `2|lines|` for the final
  flush;
- in the Jelly loop, `2i` when graph `i` arrives, `2i + 1` after it is
  counted, and `2n` for the final flush.

The load time of the Jelly file is a parameter.

Where the program's documentation and its code disagree, the model
follows the code. The parser's docstring says (line 136): "Collect subsequent N-Quads
into that member until the next tree:member or EOF". Read that
way, members of 3, 5 and 2 quads in batches of 2 would give (2 members,
8 quads), (1 member, 2 quads). The code gives (2 members, 3 quads),
(1 member, 7 quads). The model proves the
latter (`QuadAttribution.AsWrittenExample`) and keeps the former as the
corrected behaviour (`QuadAttribution.IntendedExample`).

## Model

| member | source | states |
|---|---|---|
| Terms.RenderTerm | ldes_tree_vs_jelly_benchmark.py:96-107 | Rendering fails exactly for a blank node (reported as unsupported) or an `xsd:integer` literal whose lexical form `int()` rejects. An IRI starts with `<` and ends with `>`; a literal starts with `"`. An integer literal ends with `"^^<xsd:integer>`. |
| Terms.RenderIntegerLiteral | ldes_tree_vs_jelly_benchmark.py:101-102 | An integer literal renders as the quoted decimal of its value followed by `^^<xsd:integer>`. A language tag does not change this: the datatype test comes first. |
| Terms.RenderIntegerByValue | ldes_tree_vs_jelly_benchmark.py:101-102 | Two `xsd:integer` literals with the same value render identically, whatever their lexical form or tag. |
| Terms.RenderQuad | ldes_tree_vs_jelly_benchmark.py:89-94 | A quad line is written exactly when all four terms render. The error reported is the first failing term's, subject first. A written line starts with the rendered subject and a space and ends with ` .`. |
| Text.ParseDecimal | ldes_tree_vs_jelly_benchmark.py:102 | `int(str(n)) == n`: the decimal form of any integer reads back as that integer. |
| ProfileWriter.MarkerLine | ldes_tree_vs_jelly_benchmark.py:88 | A marker line starts with `<COLL> <tree:member> <` and ends with ` .`. |
| ProfileWriter.WriteMemberQuads | ldes_tree_vs_jelly_benchmark.py:89-94 | The inner loop returns the rendered lines of all quads in order, or the first rendering error. |
| ProfileWriter.WriteProfilePage | ldes_tree_vs_jelly_benchmark.py:75-94 | The method returns exactly `ProfilePage`: the preamble followed by each member's block, or the first error in member and quad order. |
| ProfileWriter.PageOkIff | ldes_tree_vs_jelly_benchmark.py:89-94 | The page is written if and only if every term of every member quad can be rendered. |
| ProfileWriter.PageLayout | ldes_tree_vs_jelly_benchmark.py:75-94 | A written page has exactly 8 + Σ(1 + \|quads_m\|) lines and starts with the 8 preamble lines. Member `j`'s marker is at `Offset(ms, j)`, and its quad `t` is rendered at `Offset(ms, j) + 1 + t`. |
| ProfileWriter.MemberAt | ldes_tree_vs_jelly_benchmark.py:87-94 | Member `j`'s block occupies exactly the lines from `Offset(ms, j)` to `Offset(ms, j + 1)`. That block is its marker followed by its quad lines. |
| ProfileWriter.PageLinesEndWithDot | ldes_tree_vs_jelly_benchmark.py:75-94 | Every written line ends with ` .`. |
| ProfileParser.ClassifyPadded | ldes_tree_vs_jelly_benchmark.py:163-168 | White space around a line, such as its terminator, does not change its kind: the line is classified on its stripped text. |
| ProfileParser.Kinds | ldes_tree_vs_jelly_benchmark.py:162-168 | One line kind is produced per line read. |
| ProfileParser.KindsAt | ldes_tree_vs_jelly_benchmark.py:163-168 | Each line is classified on its own stripped text. |
| ProfileParser.MarkerPositionsAreMarkers | ldes_tree_vs_jelly_benchmark.py:168 | Every listed marker position holds a marker line. |
| ProfileParser.MarkersAreListed | ldes_tree_vs_jelly_benchmark.py:168 | Every marker line is listed among the marker positions. |
| ProfileParser.StepShape | ldes_tree_vs_jelly_benchmark.py:162-186 | One loop pass only appends to `batch_stats`, at most one record. It appends exactly when a marker brings `current_members` to `batch_size`; the record has this batch's index and `batch_size` members, and the index advances and the counters reset. Any other marker counts one member. A non-marker line changes neither the members, the index nor the timer. The timer is unset exactly when no member is open, before and after. |
| ProfileParser.RunShape | ldes_tree_vs_jelly_benchmark.py:162-186 | After any lines, `batch_index` equals the number of records, record `i` has index `i` and `batch_size` members, fewer than `batch_size` members are open, and the timer is unset exactly when none are. For `batch_size < 1` no record is ever made in the loop. |
| ProfileParser.RunHolds | ldes_tree_vs_jelly_benchmark.py:162-186 | After any prefix of the stream, the loop's variables equal the reference state: closed batches, index `Full(G, B)`, open members and quads, timer, `in_members`. |
| ProfileParser.RunThenFlush | ldes_tree_vs_jelly_benchmark.py:172-189 | After the loop, `t0_batch` is unset exactly when `current_members == 0`. The final flush then yields the reference batches. |
| ProfileParser.TimerSet | ldes_tree_vs_jelly_benchmark.py:157-175 | In the reference state, the open batch's timer is unset exactly when it has no member. |
| ProfileParser.ParserState.constructor | ldes_tree_vs_jelly_benchmark.py:140-148 | The variables start as an empty list, index 0, zero counts, no timer and not inside members. |
| ProfileParser.ParserState.FlushBatch | ldes_tree_vs_jelly_benchmark.py:150-159 | With no member the flush changes nothing. Otherwise it appends `(index, members, quads, now - t0)`, increments the index and resets the counters and timer. The timer invariant is kept. |
| ProfileParser.ParserState.CountMember | ldes_tree_vs_jelly_benchmark.py:172-179 | A marker line's work: start the timer if it is unset, count the member and flush when the batch is full. The new variables are the loop step for a marker. |
| ProfileParser.ParserState.ReadLine | ldes_tree_vs_jelly_benchmark.py:162-186 | One loop iteration keeps the variables equal to the loop's step function over the line kinds read so far. |
| ProfileParser.ParserState.Finish | ldes_tree_vs_jelly_benchmark.py:188-190 | The final flush returns exactly the reference batches of the lines read. |
| ProfileParser.ParseTreeProfileBatches | ldes_tree_vs_jelly_benchmark.py:131-190 | The parser returns exactly `TreeBatches(lines, batchSize, clock)`. |
| TreeBatchLaws.IndicesAndMembers | ldes_tree_vs_jelly_benchmark.py:175-189 | The batches are numbered 0, 1, 2, … in order. Each has at least one member, and their members sum to the number of marker lines. |
| TreeBatchLaws.BatchSizes | ldes_tree_vs_jelly_benchmark.py:175-189 | For `batch_size >= 1` there are ⌈G/B⌉ batches. All but the last have exactly B members, and the last has at most B. |
| TreeBatchLaws.NoFullBatches | ldes_tree_vs_jelly_benchmark.py:177 | For `batch_size < 1` no batch ever fills: there is one batch holding all G members, or none when G = 0. |
| TreeBatchLaws.EmptyIffNoMarkers | ldes_tree_vs_jelly_benchmark.py:152-153 | The result is empty if and only if the stream has no marker line. |
| TreeBatchLaws.ReportedQuads | ldes_tree_vs_jelly_benchmark.py:177-186 | Quad lines before the first marker count toward no batch. The reported quads sum to all quad lines from the first marker on, less the quad lines after the last marker when G mod B = 0. |
| QuadAttribution.AsWrittenAttribution | ldes_tree_vs_jelly_benchmark.py:177-189 | For a page laid out as written, the members sum to G. Each batch closed by a marker reports the counts of `[0] + counts` over its own positions, i.e. the quads of the members before its last one. A final partial batch reports the rest. The quad total misses the last member's quads exactly when G mod B = 0. |
| QuadAttribution.AsWrittenExample | ldes_tree_vs_jelly_benchmark.py:177-179 | Counts [3, 5, 2] with B = 2 give (2 members, 3 quads), (1 member, 7 quads). |
| QuadAttribution.AsWrittenDropExample | ldes_tree_vs_jelly_benchmark.py:152-153 | Counts [3, 5] with B = 2 give the single batch (2 members, 3 quads). The 5 quads of the last member are reported nowhere. |
| QuadAttribution.IntendedAttribution | ldes_tree_vs_jelly_benchmark.py:131-139 | With the flush moved to the next marker, each batch reports exactly its own members' quads. All but the last batch have B members, and every quad is counted. |
| QuadAttribution.IntendedExample | ldes_tree_vs_jelly_benchmark.py:131-139 | The corrected parser on [3, 5, 2] with B = 2 gives (2 members, 8 quads), (1 member, 2 quads). |
| PageReading.PreambleKinds | ldes_tree_vs_jelly_benchmark.py:75-83 | Each of the eight preamble lines is read as a candidate quad line, not as a marker or a skipped line. |
| PageReading.MarkerKind | ldes_tree_vs_jelly_benchmark.py:88 | Every marker line the writer emits is read as a marker. |
| PageReading.QuadKind | ldes_tree_vs_jelly_benchmark.py:183 | A written quad line whose subject is a member IRI is read as a quad line, never as a marker. |
| PageReading.BlockKinds | ldes_tree_vs_jelly_benchmark.py:88-94 | A member's written block is read as a marker followed by one quad line per quad. |
| PageReading.PageKindsOfPage | ldes_tree_vs_jelly_benchmark.py:75-94 | The line kinds of a written page are 8 quad lines, then per member a marker and its quad lines. |
| PageReading.PageLinesNoBreak | ldes_tree_vs_jelly_benchmark.py:75-94 | When no member IRI and no term string holds a line break, no written line does. |
| PageReading.PageRoundTrip | ldes_tree_vs_jelly_benchmark.py:131-190 | Reading a written page back from the text stream gives batches numbered from 0 that cover all members. Their quads add up to all written quads, except the last member's when G mod B = 0. |
| LineStream.ReadWritten | ldes_tree_vs_jelly_benchmark.py:161-162 | When no written line holds a line break, reading the stream yields each written line followed by `"\n"`. |
| LineStream.KindsTerminated | ldes_tree_vs_jelly_benchmark.py:163 | The `"\n"` terminator, removed by `strip()`, does not change any line's kind. |
| LineStream.ReadBack | ldes_tree_vs_jelly_benchmark.py:161-190 | The parser run on the stream the writer produced reports the batches of the written lines, when no line holds a break. |
| LineStream.EmbeddedBreakSplits | ldes_tree_vs_jelly_benchmark.py:161-162 | A written line holding `"\n"` is read back as two lines. |
| LineStream.CarriageReturnLineFeed | ldes_tree_vs_jelly_benchmark.py:161-162 | `"\r\n"` ends a single line, which is yielded ending in `"\n"`: `"a\r\nb"` reads as `"a\n"`, `"b"`. |
| LineStream.CarriageReturn | ldes_tree_vs_jelly_benchmark.py:161-162 | A lone `"\r"` ends a line, which is yielded ending in `"\n"`: `"a\rb"` reads as `"a\n"`, `"b"`. |
| LineStream.LastLine | ldes_tree_vs_jelly_benchmark.py:161-162 | Text without a line break, at the end of the stream, is read as one line exactly as it stands. |
| JellyBatches.ParseJellyBatches | ldes_tree_vs_jelly_benchmark.py:200-234 | The loop over graph sizes, with the load record placed first, returns exactly `JellyBatchesOf`. |
| JellyBatches.JellyLaws | ldes_tree_vs_jelly_benchmark.py:200-234 | The first record is `(-1, 0, 0, load_time)`. The following records have indices 0, 1, … and at least one member each, and all but the last have B members. Each reports exactly the sizes of its own graphs. Members sum to the number of graphs and quads to the sum of the sizes. |
| JellyBatches.JellyBatchCount | ldes_tree_vs_jelly_benchmark.py:220-231 | After the load record there are ⌈n/B⌉ records for B >= 1. For B < 1 there is one record, or none for no graphs: a partial batch is emitted only if it has a member. |
| Batches.BatchCount | ldes_tree_vs_jelly_benchmark.py:177-179 | The full batches plus the open batch, if it has a member, number ⌈g/b⌉. |
| Batches.FullIsQuotient | ldes_tree_vs_jelly_benchmark.py:177-179 | After g members there are g / b full batches, covering the first (g / b)·b members. |
| Summary.Summarize | ldes_tree_vs_jelly_benchmark.py:266-285 | The load time is shown if and only if the first record has index -1, and has that record's seconds. Totals are present if and only if records remain after the offset, and they are the sums of members, quads and seconds over the records after the offset. Throughput is given if and only if that summed time is positive, and it is members / time and quads / time. The sample is the first up to three records after the offset. |
| Summary.JellySummary | ldes_tree_vs_jelly_benchmark.py:266-276 | For the Jelly records, the load time is reported. Totals are present if and only if there is a graph, and they count every graph and every quad. Their time is the summed time of the graph batches, without the load time. |
| Summary.TreeSummary | ldes_tree_vs_jelly_benchmark.py:266-276 | For TREE-profile records, no load time is reported. Totals are present if and only if a marker was read, and the member total is the number of markers. |
| Summary.PageSummary | ldes_tree_vs_jelly_benchmark.py:266-276 | For a written page read back from its text stream, the member total is G. The quad total misses exactly the last member's quads when G mod B = 0. |
| Summary.BenchmarkRun | ldes_tree_vs_jelly_benchmark.py:25-30 | With the program's configuration (10 000 members of 6 to 30 quads, batches of 100), the TREE report has 100 batches of 100 members, counts all 10 000 members, and misses between 6 and 30 quads: the last member's. |
| TreeBatchLaws.EvenBatches | ldes_tree_vs_jelly_benchmark.py:175-189 | When B divides G, there are G / B batches, numbered in order, each of exactly B members. |
| Terms.RenderQuadNoBreak | ldes_tree_vs_jelly_benchmark.py:89-107 | A quad whose IRIs, lexical forms and tags hold no line break renders to a line without one. |
| Text.StripPadded | ldes_tree_vs_jelly_benchmark.py:163 | `strip()` removes white space added on either side: `(pad + s + pad').strip() == s.strip()`. |

## Left out

- File I/O and compression are not modelled. This covers `gzip.open`, `os.makedirs` and the paths (lines 72-73, 110, 117, 161, 196). The stream's text is modelled: the writer's `"\n"` after each line and the parser's universal-newline splitting (`LineStream`). UTF-8 encoding is not.
- The rdflib `Dataset`, Jelly serialization and parsing, and `ds.contexts()` (lines 109-118, 193-198, 207, 212) are foreign library calls. The Jelly loop is given the sizes `len(g)` of the graphs `ds.contexts()` yields, in that order, and the load time as a parameter.
- `time.perf_counter()` is a clock. It is the parameter `clock`, read at the stream positions described above. Seconds are `real`: float rounding is not modelled.
- The printing in `summarize` and its four- and two-decimal formatting are not modelled, and neither is the label. The figures are.
- Random generation is not modelled: `rand_label`, `member_quads` and the seeded loop in `main` (lines 36-62, 240-249). The round-trip lemmas instead require what generation guarantees: every member quad's subject is an IRI starting with `MEM_BASE` (`PageReading.MemberSubjects`).
- `serialize_to_jelly` (lines 109-118) is not modelled. The round trip through Jelly is not modelled, because that is rdflib's behaviour.
- `current_member = line.split(" ", 2)[2]` (line 170) is not modelled. The value it assigns is never used.
- The `str.strip()` model covers Python's white-space characters. `int()` accepts only ASCII digits, with single underscores between digits. Non-ASCII decimal digits, which Python's `int()` also accepts, are not modelled. Neither is the limit CPython 3.11 and later puts on `int()` of a string and on `str()` of an integer (more than 4300 digits raise `ValueError`): the model converts integers of any size.
- String escaping in N-Quads output is not modelled because the code does none: lexical forms, language tags and IRIs are written verbatim.
- PageReading.PageRoundTrip: stated for pages whose member IRIs and term strings hold no `"\n"` or `"\r"` (`PageReading.NoLineBreaks`); generated members satisfy it. A line that held one would be split on reading (`LineStream.EmbeddedBreakSplits`), and the split parts classified on their own.
- PageReading.PageRoundTrip: stated for quads whose subject is a member IRI. Without that precondition a quad line could start with the marker prefix and be read as a marker.

## Findings

| source | as written | input that shows it | evidently intended | confidence | as-written member | corrected member |
|---|---|---|---|---|---|---|
| ldes_tree_vs_jelly_benchmark.py:177-179 | The batch is flushed when the marker of its B-th member is read, before that member's quad lines. Each batch reports the quads of the previous batch's last member and of its own members except the last. | counts [3, 5, 2], B = 2 → (2 members, 3 quads), (1 member, 7 quads) | Each member's quads are counted with the member, as the docstring says ("until the next tree:member or EOF"): (2, 8), (1, 2). | not executed | QuadAttribution.AsWrittenExample | QuadAttribution.IntendedExample |
| ldes_tree_vs_jelly_benchmark.py:152-153 | When G mod B = 0, the last batch is flushed at the last marker. The final `flush_batch` sees zero members and returns, so the quads after the last marker are never reported. | counts [3, 5], B = 2 → (2 members, 3 quads); 5 quads lost | Every written quad is reported, so the quad total is Σ counts. | not executed | QuadAttribution.AsWrittenDropExample | QuadAttribution.IntendedAttribution |

The parser model (`ProfileParser`) and everything built on it follow the
code as written. `QuadAttribution.IntendedStep` / `IntendedBatches` define
the corrected parser, and `IntendedAttribution` proves the intended
property of it for every page laid out as the writer lays it out.
`QuadAttribution.AsWrittenAttribution` and `PageReading.PageRoundTrip`
state that property's failure for all inputs.
