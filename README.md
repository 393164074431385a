# staged — a Dafny model of the spreadsheet-to-Turtle pipeline

The staged repository turns the CMC stage-gate spreadsheet, a lexicon sheet and an
SME sheet into RDF Turtle text. Around that it has a Turtle merger, two syntax
checkers, a stage-gate workflow simulator with its example generator, a mind-map
classifier, a stage-gate recommendation tally, a column summariser, a GIST
alignment check, a GraphDB uploader and the workbook-to-CSV file naming.

This project models that logic in Dafny, one module per source file, plus shared
modules:
- `Wrappers`: `Option` and `Result`.
- `Text`: the Python string operations the scripts use: strip, lower/upper, replace, split, join, find, count.
- `Sheet`: rows as maps from header to cell, the second-row-header reader and the column lookups.
- `Turtle`: the literal escapers next to the string-literal grammar of W3C RDF 1.1 Turtle (sections 2.5.1, 6.4 and 6.5) and an unescaper.
- `Slug`: the identifier slug makers.
- `Order`: string order and sorting.

The modules for the generators are:
- `Cmc` covers both copies of the CMC generator. `Sheet.Edition` selects between them: `Legacy` is generate_cmc_ttl.py, and `Current` is scripts/etl/generate_cmc_ttl.py. The two differ only in the columns they read.
- `Gupri` covers the persistent-identifier generator.
- `Xlsx` covers both identical copies of extract_xlsx.py.

How the source's forms are kept:
- State the scripts update in place is a Dafny class: the identifier caches, the workflow simulator and the mind-map extractor.
- Row loops are methods with loop invariants, proved equal to fold functions over the rows.
- The properties of those functions are lemmas.

Two modelling choices apply throughout:
- Where the source writes a literal differently from what it evidently meant, the emitters use the escaper as written. The corrected escaper is proved correct beside it (see "## Findings").
- Foreign computations are function parameters: name-based UUIDs, base64 and URL quoting. So are outcomes that come from outside: the clock, the HTTP responses and the regular-expression matches in the GIST files.

## Model

| member | source | states |
|---|---|---|
| Turtle.EscapeCmcPerChar | scripts/etl/generate_cmc_ttl.py:79-83 | the replacement chain escapes each character on its own: `\` to `\\`, `"` to `\"`, CR and LF to `\n`, TAB to `\t` |
| Turtle.EscapeCmcDenotes | scripts/etl/generate_cmc_ttl.py:79-83 | between double quotes the escaped text is a valid short literal that denotes the value with every CR turned into LF |
| Turtle.GupriShortPerChar | scripts/etl/generate_cmc_ttl_gupri.py:147-153 | on a value without LF, the single-line branch escapes each character on its own |
| Turtle.LexiconShortPerChar | scripts/etl/generate_lexicon_ttl.py:65-71 | the lexicon single-line branch escapes each character on its own, LF included |
| Turtle.LongBodyPerChar | scripts/etl/generate_cmc_ttl_gupri.py:142-146 | the corrected multi-line branch (every quote escaped) escapes each character on its own |
| Turtle.EscapeGupriDenotes | scripts/etl/generate_cmc_ttl_gupri.py:132-153 | the corrected GUPRI escaper always gives a literal token denoting exactly the value (`""` for None), in long form for a multi-line value |
| Turtle.EscapeLexiconDenotes | scripts/etl/generate_lexicon_ttl.py:54-72 | the corrected lexicon escaper always gives a literal token denoting the stripped value |
| Turtle.EscapeGupriAgreesSingleLine | scripts/etl/generate_cmc_ttl_gupri.py:147-153 | on single-line values the as-written and corrected escapers (GUPRI and lexicon) are the same |
| Turtle.AsWrittenLongExample | scripts/etl/generate_cmc_ttl_gupri.py:144-145 | as written, the long body of `a`, LF, `"` is left unchanged: it holds no `"""` to replace |
| Turtle.TrailingQuoteNotLongBody | scripts/etl/generate_cmc_ttl_gupri.py:146 | a long body ending in a raw quote is not a Turtle long-string body |
| Turtle.GupriAsWrittenExample | scripts/etl/generate_cmc_ttl_gupri.py:142-146 | as written, `a`, LF, `"` is emitted between triple quotes with its quote raw |
| Turtle.GupriTrailingQuoteBreaks | scripts/etl/generate_cmc_ttl_gupri.py:142-146 | as written, that token does not parse as a Turtle literal, while the corrected escaper's token denotes the value |
| Turtle.LexiconTrailingQuoteBreaks | scripts/etl/generate_lexicon_ttl.py:61-64 | the lexicon escaper as written has the same defect; the corrected one does not |
| Sheet.FirstPresent | scripts/etl/generate_cmc_ttl.py:100-104 | `""` when no candidate header is in the row; otherwise the cell of the first candidate present, even when that cell is empty |
| Sheet.FirstFilled | scripts/etl/generate_cmc_ttl_gupri.py:156-164 | `""` when no candidate has a non-empty cell; otherwise the stripped cell of the first candidate whose cell is non-empty |
| Sheet.Pad | scripts/etl/generate_cmc_ttl.py:95 | the record padded with empty cells or truncated to exactly `n` cells |
| Sheet.StripAll | scripts/etl/generate_cmc_ttl.py:93 | every cell stripped, in place |
| Sheet.Zip | scripts/etl/generate_cmc_ttl.py:96 | the row's keys are exactly the headers |
| Sheet.ZipLastWins | scripts/etl/generate_cmc_ttl.py:96 | a header's value is the cell under its last occurrence |
| Sheet.NormalizedRowShape | scripts/etl/generate_cmc_ttl.py:94-96 | a normalised row has exactly the header keys, and a header's value is its stripped cell or `""` past the record's end |
| Sheet.ReadSecondRowHeaders | generate_cmc_ttl.py:73-84 | fewer than two records give no headers and no rows; otherwise the stripped second record is the header list and each later record is one normalised row |
| Cmc.Table | scripts/etl/generate_cmc_ttl.py:164-189 | one field record per row, in row order, holding that row's `get_value` cells and the slugs the loops derive from them |
| Cmc.FieldsOfIds | scripts/etl/generate_cmc_ttl.py:171-172 | the stream and stage ids of a row are `safe_id` of its stream and stage cells |
| Cmc.BuildStageInfo | generate_cmc_ttl.py:94-105 | the loop builds exactly the row-by-row fold `InfoRun` |
| Cmc.InfoKeysFromRows | scripts/etl/generate_cmc_ttl.py:113-117 | a slug pair has a description iff some row with a stream, a stage and a description has that pair |
| Cmc.InfoNeverOverwritten | scripts/etl/generate_cmc_ttl.py:116-117 | an entry, once made, keeps its value through every later row |
| Cmc.InfoFirstDescriptionWins | scripts/etl/generate_cmc_ttl.py:116-117 | the first described row of a slug pair gives that pair its description |
| Cmc.InfoStepAdds | scripts/etl/generate_cmc_ttl.py:116-117 | a described row whose pair is new adds its description under that pair |
| Cmc.StageStep | scripts/etl/generate_cmc_ttl.py:130-138 | a skipped row or an already seen raw `(stream, stage)` pair adds no block; any other row adds one block and marks its raw pair seen |
| Cmc.EmitStageBlocks | generate_cmc_ttl.py:108-142 | the text is the rendering of the fold's blocks and the count is the number of blocks |
| Cmc.StageRunCount | scripts/etl/generate_cmc_ttl.py:132-138 | the seen set is the set of raw pairs of the kept rows, and there is one block per distinct raw pair |
| Cmc.CaseVariantsShareIri | scripts/etl/generate_cmc_ttl.py:134-143 | rows whose streams are `CGT` and `cgt` each get a block, and both blocks declare the same stage IRI |
| Cmc.TwoPairs | scripts/etl/generate_cmc_ttl.py:134-143 | two kept rows with different raw pairs give two blocks, in row order, each with its own row's slugs |
| Cmc.CaseInsensitiveStreamId | scripts/etl/generate_cmc_ttl.py:140 | the stream ids of `CGT` and `cgt` are equal |
| Cmc.CaseVariantsKept | scripts/etl/generate_cmc_ttl.py:130-136 | neither a `CGT` row nor a `cgt` row is skipped, and their raw keys differ |
| Cmc.DashSlugCaseVariants | scripts/etl/generate_cmc_ttl.py:141 | `safe_id` gives `CGT` and `cgt` the same slug |
| Cmc.StrippedNonEmpty | scripts/etl/generate_cmc_ttl.py:214 | every kept piece is non-empty and stripped, and there are no more pieces than inputs |
| Cmc.OwnerParts | scripts/etl/generate_cmc_ttl.py:214 | at most one more owner name than the cell has commas, each non-empty and stripped |
| Cmc.Agents | scripts/etl/generate_cmc_ttl.py:215-218 | one agent per owner name, in order, with IRI `ex:Agent-<safe_id(name)>` |
| Cmc.Iris | scripts/etl/generate_cmc_ttl.py:218-220 | the agents' IRIs, one per agent, in order |
| Cmc.DeclareAgents | scripts/etl/generate_cmc_ttl.py:226-232 | the declared set grows by the row's agent IRIs, and the output grows by one line per IRI not declared before |
| Cmc.DeclareSpec | scripts/etl/generate_cmc_ttl.py:173-179 | a Specification line is written iff its IRI was not declared before, and its IRI is then declared |
| Cmc.AddDeliverable | scripts/etl/generate_cmc_ttl.py:191-236 | a deliverable adds the QA line, one line per new agent and the `hasCQA` link; its agents become declared |
| Cmc.EmitSpecsAndDeliverables | scripts/etl/generate_cmc_ttl.py:158-238 | the text is the rendering of the fold's lines and the count is the number of lines |
| Cmc.EmitSpec | scripts/etl/generate_cmc_ttl.py:173-179 | the loop body's Specification part equals `DeclareSpec` |
| Cmc.EmitDeliverable | scripts/etl/generate_cmc_ttl.py:184-236 | the loop body's deliverable part equals `AddDeliverable` |
| Cmc.EmitAgents | scripts/etl/generate_cmc_ttl.py:226-232 | the agent loop equals `DeclareAgents` |
| Cmc.SpecRunCount | scripts/etl/generate_cmc_ttl.py:158-238 | the count is the distinct Specification IRIs, plus two per deliverable row, plus the distinct agent IRIs |
| Cmc.SpecStepCount | scripts/etl/generate_cmc_ttl.py:164-236 | one row's contribution to the Specification set, the agent set and the line count |
| Cmc.PlainStepCount | scripts/etl/generate_cmc_ttl.py:168-182 | a row without a stage, a stream or a deliverable adds at most its Specification line |
| Cmc.QaStepCount | generate_cmc_ttl.py:168-207 | a deliverable row adds its Specification if new, two lines, and one line per new agent |
| Cmc.AppendOnce | scripts/etl/generate_cmc_ttl.py:175-176 | writing a declaration for an IRI not yet declared keeps every IRI declared at most once |
| Cmc.DeclareAgentsOnce | scripts/etl/generate_cmc_ttl.py:229-231 | the agent loop declares no agent IRI twice |
| Cmc.SpecStepOnce | scripts/etl/generate_cmc_ttl.py:164-236 | one row declares no Specification or agent IRI that was already declared |
| Cmc.SpecRunDeclaresOnce | scripts/etl/generate_cmc_ttl.py:161-162 | across all rows no Specification IRI and no agent IRI is declared twice |
| Cmc.Generate | generate_cmc_ttl.py:235-241 | the document is the prefixes, a blank line, the stage text, a blank line and the Specification text, with both counts |
| Combine.ClassifyKinds | scripts/etl/combine_ttls.py:55-65 | a stripped line is a prefix declaration iff it starts with `@prefix` and has at least three tokens; it is dropped iff it is blank, starts with `#`, or is a `@prefix` line with fewer than three tokens |
| Combine.ClassifyParts | scripts/etl/combine_ttls.py:58-65 | a prefix name is the second token; a body line is the stripped, non-empty input line not starting with `#` |
| Combine.ClassifyAll | scripts/etl/combine_ttls.py:53-54 | one entry per line of the file, each its classification |
| Combine.BodyOf | scripts/etl/combine_ttls.py:63-65 | the kept body lines number at most the input lines |
| Combine.BodyOfAppend | scripts/etl/combine_ttls.py:63-65 | the body lines of two runs of lines are those of the first followed by those of the second |
| Combine.LastDeclAppend | scripts/etl/combine_ttls.py:62 | the last declaration of a name in two runs of lines is the one in the second run, if any, else the one in the first |
| Combine.AbsorbAllBody | scripts/etl/combine_ttls.py:63-65 | a file appends exactly its body lines to the body, in order |
| Combine.AbsorbAllPrefixes | scripts/etl/combine_ttls.py:56-62 | a name is declared after a file iff it was before or the file declares it; its URI is that of the file's last declaration, else what it had |
| Combine.LaterPrefixWins | scripts/etl/combine_ttls.py:62 | a second declaration of a name silently replaces the first and adds no body line |
| Combine.AbsorbFilesBody | scripts/etl/combine_ttls.py:41-65 | the merged body is the concatenation of every file's body lines in file order |
| Combine.Present | scripts/etl/combine_ttls.py:43-45 | the present files, all present, no more of them than given |
| Combine.MissingFilesSkipped | scripts/etl/combine_ttls.py:43-45 | missing files change nothing: the merge equals that of the present files alone |
| Combine.TakeLine | scripts/etl/combine_ttls.py:55-65 | one line updates the accumulators exactly as its classification says |
| Combine.TakeFile | scripts/etl/combine_ttls.py:53-65 | one file's loop equals the fold of its classified lines |
| Combine.WritePrefixes | scripts/etl/combine_ttls.py:70-71 | one `@prefix <name> <uri>` line per listed name, in the listed order |
| Combine.CombineTtlFiles | scripts/etl/combine_ttls.py:26-76 | the output is the prefix block sorted by name, a blank line, then the body lines joined by newlines, over the merged files |
| Order.LtTransitive | scripts/etl/combine_ttls.py:70 | the string order `sorted` uses is transitive |
| Order.LtTotal | scripts/etl/combine_ttls.py:70 | any two different strings are ordered one way or the other |
| Order.Insert | scripts/etl/combine_ttls.py:70 | inserting a new string keeps the list sorted and adds exactly that string |
| Order.SortNames | scripts/etl/combine_ttls.py:70 | the names sorted: increasing, each key exactly once, and equal to the one sorted listing `SortedKeys` |
| Order.SortedUnique | scripts/etl/combine_ttls.py:70 | a set of strings has exactly one sorted listing |
| Order.SortedKeys | scripts/etl/combine_ttls.py:70 | a sorted listing of the keys, each exactly once |
| Slug.CollapseRuns | scripts/etl/generate_cmc_ttl.py:74 | every separator run becomes one replacement character: no separator remains but the replacement, no two are adjacent, and the first character is kept or replaced |
| Slug.CollapseKeeps | scripts/etl/generate_cmc_ttl.py:74 | collapsing keeps any property shared by the input characters and the replacement |
| Slug.CollapseFixpoint | scripts/etl/generate_cmc_ttl.py:74 | a string with no separator run to collapse is unchanged |
| Slug.DashSlugShape | scripts/etl/generate_cmc_ttl.py:72-76 | `safe_id` always gives a non-empty `[a-z0-9-]` slug with no dash at either end and no two dashes together |
| Slug.DashSlugFixpoint | scripts/etl/generate_cmc_ttl.py:72-76 | a string of that shape is its own `safe_id` |
| Slug.DashSlugIdempotent | scripts/etl/generate_cmc_ttl.py:72-76 | applying `safe_id` twice is applying it once |
| Slug.DashSlugFallback | scripts/etl/generate_cmc_ttl.py:76 | text with no ASCII letter or digit becomes `unnamed` |
| Slug.DashSlugStripped | scripts/etl/generate_cmc_ttl.py:73 | stripping the text beforehand changes nothing |
| Slug.UnnamedIsDashSlug | scripts/etl/generate_cmc_ttl.py:76 | the fallback `unnamed` has the slug shape |
| Slug.Underscored | scripts/etl/generate_lexicon_ttl.py:30 | one character for one: word characters kept, every other character `_` |
| Slug.WordSlugShape | scripts/etl/generate_lexicon_ttl.py:27-35 | the lexicon `safe_id` gives `[A-Za-z0-9_]` with no `_` at either end or doubled, possibly empty |
| Slug.WordSlugFixpoint | scripts/etl/generate_lexicon_ttl.py:27-35 | a string of that shape is its own lexicon `safe_id` |
| Slug.WordSlugIdempotent | scripts/etl/generate_lexicon_ttl.py:27-35 | applying the lexicon `safe_id` twice is applying it once |
| Slug.CleanHint | scripts/etl/generate_cmc_ttl_gupri.py:108 | the cleaned hint is at most 20 characters long |
| Slug.CleanHintShape | scripts/etl/generate_cmc_ttl_gupri.py:108 | the cleaned hint is `[A-Za-z0-9_]`, with no `_` at either end or doubled, and at most 20 characters |
| Slug.RemoveParens | scripts/etl/generate_sme_ttl.py:37 | removing the groups never lengthens the text |
| Slug.RemoveParensComplete | scripts/etl/generate_sme_ttl.py:37 | no `(` left in the result has a `)` after it |
| Slug.RemoveParensGroup | scripts/etl/generate_sme_ttl.py:37 | a `(`…`)` group after text without `(` disappears, and the rest is processed on |
| Slug.RemoveParensNone | scripts/etl/generate_sme_ttl.py:37 | text without `(` is unchanged |
| Slug.SmeSlugShape | scripts/etl/generate_sme_ttl.py:33-41 | the SME `safe_id` always has the dash-slug shape |
| Slug.SmeSlugPlain | scripts/etl/generate_sme_ttl.py:33-41 | without parentheses the SME `safe_id` is the CMC `safe_id` |
| Gupri.NonEmpty | scripts/etl/generate_cmc_ttl_gupri.py:98 | the kept components are the non-empty ones: each is non-empty, and a string is kept iff it is a non-empty component |
| Gupri.NonEmptyConcat | scripts/etl/generate_cmc_ttl_gupri.py:98 | filtering two runs of components is filtering each, in order |
| Gupri.CacheKeyDropsEmpty | scripts/etl/generate_cmc_ttl_gupri.py:98 | an empty component anywhere leaves the cache key, and so the identifier, unchanged |
| Gupri.Token | scripts/etl/generate_cmc_ttl_gupri.py:109-111 | the token is a prefix of the UUID text, at most 8 characters long |
| Gupri.FreshGupriShape | scripts/etl/generate_cmc_ttl_gupri.py:106-111 | a new identifier is `ex:<Type>_`, then the cleaned hint and `_` when a hint is given, then the token; the hint is a clean word slug of at most 20 characters |
| Gupri.Resolve | scripts/etl/generate_cmc_ttl_gupri.py:100-116 | a hit returns the stored identifier with the cache unchanged; a miss returns the new identifier and adds exactly that key; no other entry changes |
| Gupri.ResolveSettled | scripts/etl/generate_cmc_ttl_gupri.py:100-101 | once a key is in the cache, every later lookup in any cache that keeps the entry returns the same identifier and changes nothing |
| Gupri.IdCache.CreateGupri | scripts/etl/generate_cmc_ttl_gupri.py:83-116 | the identifier and the new cache are `Resolve` of the old cache, the cache key, and the identifier minted from `uuid5` of the key |
| Gupri.Plain | scripts/etl/generate_cmc_ttl_gupri.py:193-195 | a lookup without a hint only adds entries and leaves its key mapped to the identifier returned |
| Gupri.StageStep | scripts/etl/generate_cmc_ttl_gupri.py:178-188 | a skipped row or a seen `stream:stage` key adds no block; any other row adds one block, marks its key seen and records its Specification identifier; the cache only grows |
| Gupri.AddFresh | scripts/etl/generate_cmc_ttl_gupri.py:187-188 | a key not yet seen grows the seen set by one |
| Gupri.StageIds | scripts/etl/generate_cmc_ttl_gupri.py:191-195 | the four lookups only add cache entries and record the Specification identifier |
| Gupri.CreateStageIds | scripts/etl/generate_cmc_ttl_gupri.py:191-195 | the four `create_gupri` calls, in order, equal `StageIds` |
| Gupri.EmitStageBlocks | scripts/etl/generate_cmc_ttl_gupri.py:167-226 | the text and count are those of the stage fold's blocks, and the cache ends as the fold leaves it |
| Gupri.StageRow | scripts/etl/generate_cmc_ttl_gupri.py:174-224 | one loop iteration equals `StageStep` |
| Gupri.StageRunCount | scripts/etl/generate_cmc_ttl_gupri.py:184-188 | the seen keys are those of the kept rows, there is one block per distinct key, and the cache only grows |
| Gupri.StageRunSeen | scripts/etl/generate_cmc_ttl_gupri.py:184-187 | the seen set is the set of keys of the kept rows |
| Gupri.StageRunOut | scripts/etl/generate_cmc_ttl_gupri.py:185-188 | the number of blocks equals the number of seen keys |
| Gupri.StageRunExtends | scripts/etl/generate_cmc_ttl_gupri.py:192-195 | the stage loop never replaces a cache entry |
| Gupri.StageRunRecordsSpec | scripts/etl/generate_cmc_ttl_gupri.py:195 | the first row of each kept pair leaves its Specification identifier in the cache |
| Gupri.StageIdsSettled | scripts/etl/generate_cmc_ttl_gupri.py:191-195 | from a cache that keeps the first lookup's entries, the four lookups give the same identifiers and add nothing |
| Gupri.StageRunSettled | scripts/etl/generate_cmc_ttl_gupri.py:167-226 | re-running the stage loop from a cache that keeps every entry of the first run writes the same blocks and adds nothing |
| Gupri.DeliverableTable | scripts/etl/generate_cmc_ttl_gupri.py:236-263 | one field record per row, in order, each the row's GUPRI `get_value` cells |
| Gupri.DeclareSpec | scripts/etl/generate_cmc_ttl_gupri.py:244-252 | the pair's key becomes declared; a block is added iff it was not declared before; the cache only grows |
| Gupri.AddQa | scripts/etl/generate_cmc_ttl_gupri.py:254-298 | one block iff the row has a deliverable; the cache only grows |
| Gupri.DeliverableStep | scripts/etl/generate_cmc_ttl_gupri.py:240-298 | a row with a pair declares its Specification the first time and adds a block when it has a deliverable; other rows add nothing |
| Gupri.DeliverableRow | scripts/etl/generate_cmc_ttl_gupri.py:236-298 | one loop iteration equals `DeliverableStep` |
| Gupri.EmitDeliverableBlocks | scripts/etl/generate_cmc_ttl_gupri.py:229-300 | the text and count are those of the deliverable fold's blocks, and the cache ends as the fold leaves it |
| Gupri.DeliverableLoop | scripts/etl/generate_cmc_ttl_gupri.py:235-298 | the loop's blocks and cache are those of the deliverable fold |
| Gupri.DeliverableRunCount | scripts/etl/generate_cmc_ttl_gupri.py:247-298 | each Specification is declared once, and the count is the distinct pairs plus the deliverable rows; the cache only grows |
| Gupri.DeclareSpecSettled | scripts/etl/generate_cmc_ttl_gupri.py:244 | the Specification lookup from a cache that keeps its entry gives the same block and adds nothing |
| Gupri.AddQaSettled | scripts/etl/generate_cmc_ttl_gupri.py:267-268 | the deliverable lookup from a cache that keeps its entry gives the same block and adds nothing |
| Gupri.DeliverableRunSettled | scripts/etl/generate_cmc_ttl_gupri.py:229-300 | re-running the deliverable loop from a cache that keeps every entry of the first run writes the same blocks and adds nothing |
| Gupri.SharedSpecificationId | scripts/etl/generate_cmc_ttl_gupri.py:195 | the Specification a stage block names is the one the deliverable loop declares for the same pair |
| Gupri.FirstFilledFrame | scripts/etl/generate_cmc_ttl_gupri.py:156-164 | a cell outside the candidate list does not change the value read |
| Gupri.CellFrame | scripts/etl/generate_cmc_ttl_gupri.py:156-164 | a cell outside a column's candidates does not change that column's value |
| Gupri.OwnerNeverEmitted | scripts/etl/generate_cmc_ttl_gupri.py:259 | the Owner cell is read but never used: changing it leaves the row's deliverable fields, and so its output, the same |
| Gupri.OwnerOutside | scripts/etl/generate_cmc_ttl_gupri.py:48-62 | no Owner header is a candidate of another column |
| Gupri.Generate | scripts/etl/generate_cmc_ttl_gupri.py:328-340 | the document is the prefixes, the stage text and the deliverable text with blank lines between, with both counts; the cache is the one the deliverable loop leaves |
| Gupri.RerunWritesSameDocument | scripts/etl/generate_cmc_ttl_gupri.py:65-80 | running again over the same rows with the saved cache writes the same blocks and leaves the cache as it was |
| Gupri.StageTable | scripts/etl/generate_cmc_ttl_gupri.py:174-176 | one field record per row, in order, each the row's stream, stage and description |
| Gupri.IdCache.constructor | scripts/etl/generate_cmc_ttl_gupri.py:65-74 | the cache starts with the loaded mappings |
| Lexicon.TermGupriShape | scripts/etl/generate_lexicon_ttl.py:46-48 | a term identifier is `ex:Term_`, the abbreviation's lexicon slug, `_` and the 8-character token; the slug has the word-slug shape |
| Lexicon.ThreeParts | scripts/etl/generate_lexicon_ttl.py:48 | the middle of a three-part concatenation is recovered by cutting off the first and last parts |
| Lexicon.TermSlugCanBeEmpty | scripts/etl/generate_lexicon_ttl.py:27-35 | the lexicon slug has no fallback: `&` slugs to the empty string |
| Lexicon.TermIds.constructor | scripts/etl/generate_lexicon_ttl.py:38-51 | the dictionary starts with the given mappings |
| Lexicon.TermIds.GenerateLexiconGupri | scripts/etl/generate_lexicon_ttl.py:38-51 | a stored identifier is returned and the dictionary left alone; otherwise the new `ex:Term_…` identifier is stored under `Term:<abbr>` and no other entry changes |
| Lexicon.CategorizeIgnoresCase | scripts/etl/generate_lexicon_ttl.py:77-78 | the category depends on the abbreviation and the definition only up to letter case |
| Lexicon.CoaNeverMatches | scripts/etl/generate_lexicon_ttl.py:85 | an upper-cased abbreviation never contains `CoA` |
| Lexicon.CoaKeywordDead | scripts/etl/generate_lexicon_ttl.py:85 | as written, the rules behave exactly as if `CoA` were not listed |
| Lexicon.MissingChar | scripts/etl/generate_lexicon_ttl.py:81-105 | a character of the keyword that the text lacks rules the keyword out |
| Lexicon.NoRegulatoryKey | scripts/etl/generate_lexicon_ttl.py:81 | text without the letters of the regulatory keywords matches none of them |
| Lexicon.NoQualityKeyAsWritten | scripts/etl/generate_lexicon_ttl.py:85 | text without the letters of the quality keywords matches none of them |
| Lexicon.NoCellGeneKey | scripts/etl/generate_lexicon_ttl.py:89 | text without the letters of the cell and gene keywords matches none of them |
| Lexicon.NoProcessKey | scripts/etl/generate_lexicon_ttl.py:93 | text without the letters of the process keywords matches none of them |
| Lexicon.NoClinicalOrAnalyticalKey | scripts/etl/generate_lexicon_ttl.py:97-101 | text without the letters of the clinical and analytical keywords matches none of them |
| Lexicon.NoDefinitionWord | scripts/etl/generate_lexicon_ttl.py:97-105 | a definition without those letters contains neither `clinical`, `analytical` nor an organisation word |
| Lexicon.CoaCounterexample | scripts/etl/generate_lexicon_ttl.py:75-109 | as written, `CoA` falls through to the default Process category; with `COA` listed it is Quality |
| Lexicon.CoaUpper | scripts/etl/generate_lexicon_ttl.py:77 | `CoA` upper-cased is `COA` |
| Lexicon.CoaCasedCategories | scripts/etl/generate_lexicon_ttl.py:80-109 | on the upper-cased `COA`, the listed keywords give Process as written and Quality corrected |
| Lexicon.CoaIsQuality | scripts/etl/generate_lexicon_ttl.py:84-86 | corrected, an abbreviation containing `COA` and no regulatory keyword is a quality term |
| Lexicon.FlagsIgnoreCase | scripts/etl/generate_lexicon_ttl.py:112-121 | the critical and regulatory tests ignore the letter case of the abbreviation |
| Lexicon.CellBankStages | scripts/etl/generate_lexicon_ttl.py:142 | four stage links |
| Lexicon.CellBankStagesValues | scripts/etl/generate_lexicon_ttl.py:142 | the cell-bank links are the CGT stages 0 to 3 |
| Lexicon.FindRelatedStage | scripts/etl/generate_lexicon_ttl.py:124-149 | the list is built rule by rule in source order |
| Lexicon.RelatedStagesCount | scripts/etl/generate_lexicon_ttl.py:130-147 | two links for first-in-human, plus two for PPQ or a late-stage term or four for a cell bank; at most six |
| Lexicon.Terms | scripts/etl/generate_lexicon_ttl.py:192-197 | one term per row, in order, with the abbreviation and definition stripped |
| Lexicon.BodyLength | scripts/etl/generate_lexicon_ttl.py:216-244 | a term writes exactly as many body lines as the triple counter adds |
| Lexicon.TermOfCounted | scripts/etl/generate_lexicon_ttl.py:196-244 | every kept term's body length equals its triple count |
| Lexicon.LexRunCounts | scripts/etl/generate_lexicon_ttl.py:192-244 | the term counter counts the kept rows; the lines are the counted triples plus three per term; no stored identifier changes |
| Lexicon.Header | scripts/etl/generate_lexicon_ttl.py:168-183 | the header has 14 lines |
| Lexicon.WithStatistics | scripts/etl/generate_lexicon_ttl.py:247-248 | line 11 is replaced by the term total and the triple total is inserted at 12; the other lines are unchanged and shifted |
| Lexicon.TermStep | scripts/etl/generate_lexicon_ttl.py:193-244 | one loop iteration equals `LexStep` |
| Lexicon.EmitTerms | scripts/etl/generate_lexicon_ttl.py:192-244 | the row loop equals the fold `LexRun` over the rows' terms |
| Lexicon.GenerateLexiconTtl | scripts/etl/generate_lexicon_ttl.py:152-253 | the text is the header with the statistics patched in and the term lines, joined by newlines; both counters and the dictionary are the fold's |
| Lexicon.GeneratedCounts | scripts/etl/generate_lexicon_ttl.py:185-248 | over real rows the term total is the kept rows and the term lines are the triples plus three per term |
| Sme.CloseFrom | scripts/etl/generate_sme_ttl.py:53 | the index found is the first `)` at or after the start index; none is found exactly when no `)` follows |
| Sme.GroupEnd | scripts/etl/generate_sme_ttl.py:53 | a `(Backup …)` match starts here exactly when the text opens with `(Backup ` and a `)` closes a non-empty group; the group between them holds no `)` |
| Sme.FirstBackupShape | scripts/etl/generate_sme_ttl.py:53-56 | a backup found by the search is non-empty and holds no `)` |
| Sme.NoBackupKeepsText | scripts/etl/generate_sme_ttl.py:55 | without a `(Backup …)` match the substitution leaves the text unchanged |
| Sme.NoBackupPlain | scripts/etl/generate_sme_ttl.py:58 | a person without a backup gives the stripped text and no backup |
| Sme.GroupEndOf | scripts/etl/generate_sme_ttl.py:53 | `(Backup b)` with a non-empty `b` free of `)` is matched and ends at its `)` |
| Sme.NoGroupHere | scripts/etl/generate_sme_ttl.py:53 | no match starts at a character other than `(` |
| Sme.FirstBackupSkips | scripts/etl/generate_sme_ttl.py:53 | the search passes over any prefix without `(` |
| Sme.RemoveBackupsSkips | scripts/etl/generate_sme_ttl.py:55 | the substitution keeps any prefix without `(` as it is |
| Sme.BackupAfter | scripts/etl/generate_sme_ttl.py:53-56 | after a prefix without `(`, the group of `(Backup b)` is the backup found |
| Sme.BackupRemoved | scripts/etl/generate_sme_ttl.py:55 | removing `(Backup b)` after a prefix without `(` leaves the prefix followed by the rest with its own matches removed |
| Sme.ExtractNameAndBackup | scripts/etl/generate_sme_ttl.py:51-58 | `Name (Backup Other)` splits into the stripped name and the stripped other name |
| Sme.ContactIgnoresCase | scripts/etl/generate_sme_ttl.py:118-123 | the contact kind is decided after lower-casing, so upper- or lower-casing the cell does not change it |
| Sme.Entries | scripts/etl/generate_sme_ttl.py:79-101 | one entry per row, in order, each holding that row's stripped fields and its split person |
| Sme.Opened | scripts/etl/generate_sme_ttl.py:89-98 | after a row the stream is a key, and so is its area when the area is non-empty |
| Sme.OpenedKeeps | scripts/etl/generate_sme_ttl.py:89-98 | opening a stream and area keeps the tally consistent (every listed name is an expert with the matching role; every expert's streams are opened and its roles lie in its areas) and loses nothing |
| Sme.PutExpert | scripts/etl/generate_sme_ttl.py:104-139 | storing an expert that keeps what was recorded and has well-formed roles keeps the tally consistent |
| Sme.AppendListed | scripts/etl/generate_sme_ttl.py:118-123 | listing a name under an area's primary or secondary list keeps the tally consistent when the expert already holds that role |
| Sme.EnrolledGrows | scripts/etl/generate_sme_ttl.py:104-114 | the expert looked up or created, with the stream added, keeps what was recorded and has a stream opened in the tally |
| Sme.TakePrimaryKeeps | scripts/etl/generate_sme_ttl.py:103-123 | the primary person's part of a row keeps the tally consistent and loses nothing |
| Sme.TakeBackupKeeps | scripts/etl/generate_sme_ttl.py:125-140 | the backup person's part of a row keeps the tally consistent and loses nothing |
| Sme.StepKeeps | scripts/etl/generate_sme_ttl.py:79-140 | one row keeps the tally consistent and loses no stream, area, expert, role or specialty |
| Sme.GrowsTransitive | scripts/etl/generate_sme_ttl.py:79-140 | losing nothing over two stretches of rows loses nothing over both |
| Sme.RunKeeps | scripts/etl/generate_sme_ttl.py:79-140 | after any rows the tally is consistent and keeps everything any earlier prefix recorded, so an expert's specialty is the one set when the name first appeared |
| Sme.NewExpertSpecialty | scripts/etl/generate_sme_ttl.py:105-112 | a name new to the tally gets the row's specialty when it is the primary person and an empty one when it is only the backup |
| Sme.StepLists | scripts/etl/generate_sme_ttl.py:118-140 | a kept row with an area appends the primary person to the primary or secondary list as its contact says, then the backup to the secondary list, and nothing else |
| Sme.SkippedRow | scripts/etl/generate_sme_ttl.py:86-87 | a row without a value stream or a person leaves the tally unchanged |
| Sme.Close | scripts/etl/generate_sme_ttl.py:176 | closing keeps the line's length |
| Sme.CloseEndsStatement | scripts/etl/generate_sme_ttl.py:176 | a statement line ending in ` ;` ends in ` .` once closed, and keeps everything before the terminator |
| Sme.CloseRewritesLiteral | scripts/etl/generate_sme_ttl.py:208 | as written, a ` ;` inside a literal on an expert's last line is rewritten to ` .` as well; the corrected close changes only the terminator |
| Sme.Closed | scripts/etl/generate_sme_ttl.py:175-176 | closing a block changes only its last line |
| Sme.PropLines | scripts/etl/generate_sme_ttl.py:163-173 | one indented `predicate object ;` line per object, in order |
| Sme.SmeRefs | scripts/etl/generate_sme_ttl.py:165-172 | each name becomes `ex:SME-` and its slug, in order |
| Sme.QuotedAll | scripts/etl/generate_sme_ttl.py:189-194 | each value is quoted, escaped where the generator escapes it (areas) and raw where it does not (modalities) |
| Sme.AreaLines | scripts/etl/generate_sme_ttl.py:158-173 | an area's block has its subject, label and modality lines, then one line per primary and one per secondary person |
| Sme.AreaBlocksSnoc | scripts/etl/generate_sme_ttl.py:157-176 | one more area appends exactly that area's closed block |
| Sme.StreamSectionsSnoc | scripts/etl/generate_sme_ttl.py:155-176 | one more stream appends exactly that stream's section |
| Sme.ExpertBlocksSnoc | scripts/etl/generate_sme_ttl.py:180-208 | one more expert appends exactly that expert's closed block |
| Sme.TakeRow | scripts/etl/generate_sme_ttl.py:79-140 | one pass of the loop body over the two dictionaries gives `Step` of the tally, the aggregation step as the source writes it |
| Sme.Aggregate | scripts/etl/generate_sme_ttl.py:79-140 | the row loop's dictionaries are the aggregation of all rows in order |
| Sme.AppendProps | scripts/etl/generate_sme_ttl.py:163-173 | the lines gain one statement line per object, after the lines already there |
| Sme.AreaBlock | scripts/etl/generate_sme_ttl.py:158-176 | the emitted area block is the area's lines, closed |
| Sme.EmitAreas | scripts/etl/generate_sme_ttl.py:157-176 | the inner loop emits the closed blocks of the areas in the order given |
| Sme.EmitSection | scripts/etl/generate_sme_ttl.py:156-176 | a stream's heading is followed by its areas in sorted order |
| Sme.EmitStreams | scripts/etl/generate_sme_ttl.py:155-176 | the outer loop emits every stream's section in sorted order |
| Sme.EmitRoles | scripts/etl/generate_sme_ttl.py:201-205 | a role line holds the sorted roles joined by `, `; there is no line without roles |
| Sme.EmitExpert | scripts/etl/generate_sme_ttl.py:181-208 | an expert's block is its head, sorted modalities, sorted escaped areas, specialty, roles, closed |
| Sme.EmitExpertList | scripts/etl/generate_sme_ttl.py:180-208 | the loop emits the closed blocks of the experts in the order given |
| Sme.EmitExperts | scripts/etl/generate_sme_ttl.py:179-208 | every expert's block is emitted, in sorted name order |
| Sme.GenerateSmeTtl | scripts/etl/generate_sme_ttl.py:61-213 | the text written is the header, the stream sections and the expert blocks of the aggregation of all rows, joined by newlines |
| VerifyTtl.Run | scripts/validation/verify_ttl_files.py:42-46 | a `\s*`, `\w*` or `[^>]*` run never reaches past the end of the text |
| VerifyTtl.LineStep | scripts/validation/verify_ttl_files.py:51-80 | a line never changes the line count and adds at most one to the comment and prefix counts together |
| VerifyTtl.Message | scripts/validation/verify_ttl_files.py:84-105 | every complaint's text is longer than `Valid` |
| VerifyTtl.Messages | scripts/validation/verify_ttl_files.py:111 | one message per complaint, in order |
| VerifyTtl.MissingAll | scripts/validation/verify_ttl_files.py:91-94 | no complaint about prefixes exactly when every required prefix occurs in the content |
| VerifyTtl.CounterComplaints | scripts/validation/verify_ttl_files.py:83-88 | no complaint about the counters exactly when the depth is zero and some prefix line was counted |
| VerifyTtl.TextComplaints | scripts/validation/verify_ttl_files.py:97-105 | no complaint about the text exactly when it has no `;;`, no `.` followed by optional space and `,` or `;`, and ends (after trailing space) in `.`, `]` or `)` |
| VerifyTtl.CountLine | scripts/validation/verify_ttl_files.py:52-80 | the loop body's counters are one step of the scan |
| VerifyTtl.Bump | scripts/validation/verify_ttl_files.py:59-80 | a non-comment line updates the counters as its pattern tests say |
| VerifyTtl.ScanContent | scripts/validation/verify_ttl_files.py:38-80 | the loop over the lines yields the scan of the content |
| VerifyTtl.Complaints | scripts/validation/verify_ttl_files.py:82-105 | the complaints appended after the loop, in order |
| VerifyTtl.TextChecks | scripts/validation/verify_ttl_files.py:96-105 | the three whole-text checks, in order |
| VerifyTtl.ValidateTtlSyntaxBasic | scripts/validation/verify_ttl_files.py:23-112 | the triple returned is the verdict on the content: its validity, message and counters |
| VerifyTtl.NoErrorsIff | scripts/validation/verify_ttl_files.py:82-105 | there is no complaint exactly when the depth is zero, a prefix line was counted, `ex:`, `rdfs:` and `owl:` occur, and the three text checks pass |
| VerifyTtl.ValidIff | scripts/validation/verify_ttl_files.py:110-112 | the content is valid exactly when every check passes, and the message is `Valid` exactly when it is valid |
| VerifyTtl.JoinLonger | scripts/validation/verify_ttl_files.py:111 | the joined message is at least as long as its first complaint |
| VerifyTtl.LinesCount | scripts/validation/verify_ttl_files.py:38-39 | the line count is one more than the number of newlines |
| VerifyTtl.ScanKeepsLines | scripts/validation/verify_ttl_files.py:51-80 | the loop never changes the line count |
| VerifyTtl.CommentLineOnly | scripts/validation/verify_ttl_files.py:55-57 | a line starting with `#` once stripped bumps the comment count and nothing else, not even the depth |
| VerifyTtl.ScanTotals | scripts/validation/verify_ttl_files.py:76-80 | the depth and the triple count are plain sums over the non-comment lines |
| VerifyTtl.SumsConcat | scripts/validation/verify_ttl_files.py:76-80 | both sums split over a concatenation of lines |
| VerifyTtl.NestingIgnored | scripts/validation/verify_ttl_files.py:76-77 | swapping two stretches of lines never changes the depth, so a `]` before its `[` goes unnoticed |
| StageGateSim.EveryAt | examples/stage_gate_0/test_stage_gate_0.py:47-52 | a list of lines passes the loop exactly when every line passes |
| StageGateSim.CheckTtlSyntax | examples/stage_gate_0/test_stage_gate_0.py:39-54 | the syntax check holds exactly when every line, stripped, is blank, a `#`/`@` line or ends in `.`, `;`, `{` or `}`, and the braces are balanced in count |
| StageGateSim.CheckLines | examples/stage_gate_0/test_stage_gate_0.py:46-52 | the line loop, which stops at the first bad line, passes exactly when every line passes |
| StageGateSim.CheckLine | examples/stage_gate_0/test_stage_gate_0.py:48-51 | one line passes exactly when, stripped, it is skipped or ends a statement or a brace |
| StageGateSim.CountEntities | examples/stage_gate_0/test_stage_gate_0.py:69-76 | each count is zero exactly when its `a sg:…` text does not occur |
| StageGateSim.Store | examples/stage_gate_0/test_stage_gate_0.py:92-100 | storing under a key keeps the insertion-ordered dictionary well-formed; a new key goes last, an existing one keeps its place, and only that entry changes |
| StageGateSim.InitAll | examples/stage_gate_0/test_stage_gate_0.py:88-100 | initialising from deliverables keeps the dictionary well-formed |
| StageGateSim.LastWithId | examples/stage_gate_0/test_stage_gate_0.py:91 | the deliverable found has the id asked for |
| StageGateSim.InitLastWins | examples/stage_gate_0/test_stage_gate_0.py:90-100 | after initialisation each id taken by a deliverable holds a fresh pending record of the last deliverable with that id: a collision of the area and the first 30 characters overwrites |
| StageGateSim.InitKeys | examples/stage_gate_0/test_stage_gate_0.py:88-100 | afterwards a key is present exactly when it was before or some deliverable has it as id; at most one new key per deliverable |
| StageGateSim.CountStatus | examples/stage_gate_0/test_stage_gate_0.py:133-138 | a status count never exceeds the number of records |
| StageGateSim.StatusPartition | examples/stage_gate_0/test_stage_gate_0.py:132-138 | completed, in progress and pending (which counts assigned) add up to the total |
| StageGateSim.GroupStep | examples/stage_gate_0/test_stage_gate_0.py:144-150 | one record keeps the by-area grouping well-formed: areas listed once, in first-seen order, each with counters |
| StageGateSim.GroupAll | examples/stage_gate_0/test_stage_gate_0.py:143-150 | the grouping over all records is well-formed |
| StageGateSim.SumsBump | examples/stage_gate_0/test_stage_gate_0.py:148-150 | changing one area's counters changes the sums by the same amount, and not at all when the area is not listed |
| StageGateSim.SumsAppend | examples/stage_gate_0/test_stage_gate_0.py:146-147 | a newly opened area adds its counters to the sums |
| StageGateSim.SumsFrame | examples/stage_gate_0/test_stage_gate_0.py:146-147 | counters of an unlisted area do not reach the sums |
| StageGateSim.AreaSums | examples/stage_gate_0/test_stage_gate_0.py:143-150 | the per-area totals add up to the number of records, and the per-area completions to the completed count |
| StageGateSim.GroupStepSums | examples/stage_gate_0/test_stage_gate_0.py:145-150 | one record adds one to the total sum, and one to the completed sum exactly when it is completed |
| StageGateSim.CountArea | examples/stage_gate_0/test_stage_gate_0.py:145-150 | the loop body's area list and counters are one step of the grouping |
| StageGateSim.ReadinessSums | examples/stage_gate_0/test_stage_gate_0.py:130-160 | the report's counts partition the records overall and per area, and the gate can pass exactly when there is a record and every record is completed |
| StageGateSim.AllCompleted | examples/stage_gate_0/test_stage_gate_0.py:140-158 | the completed count equals the number of records exactly when every record is completed |
| StageGateSim.Simulator.constructor | examples/stage_gate_0/test_stage_gate_0.py:82-86 | the simulator starts with the given deliverables and no status records |
| StageGateSim.Simulator.InitializeWorkflow | examples/stage_gate_0/test_stage_gate_0.py:88-100 | every deliverable gets a fresh pending record under its id, in order, over the records already there |
| StageGateSim.Simulator.AssignDeliverable | examples/stage_gate_0/test_stage_gate_0.py:102-108 | succeeds exactly for a known id, whatever its status, which becomes assigned to the owner; nothing else changes, and on failure nothing at all |
| StageGateSim.Simulator.StartDeliverable | examples/stage_gate_0/test_stage_gate_0.py:110-117 | succeeds exactly for an assigned deliverable, which becomes in progress stamped with the time; otherwise nothing changes |
| StageGateSim.Simulator.CompleteDeliverable | examples/stage_gate_0/test_stage_gate_0.py:119-128 | succeeds exactly for a deliverable in progress, which becomes completed, stamped, with a non-empty note appended; otherwise nothing changes |
| StageGateSim.Simulator.GetGateReadiness | examples/stage_gate_0/test_stage_gate_0.py:130-160 | the report is the readiness of the current records |
| StageGateExample.IsYesIff | examples/stage_gate_0/stage_gate_0_example.py:70 | the VPAD test holds exactly when the cell lower-cases to `yes` |
| StageGateExample.Collect | examples/stage_gate_0/stage_gate_0_example.py:58-73 | never more deliverables than rows |
| StageGateExample.CollectIff | examples/stage_gate_0/stage_gate_0_example.py:58-73 | a deliverable is collected exactly when an accepted row describes it |
| StageGateExample.CollectAll | examples/stage_gate_0/stage_gate_0_example.py:58-73 | what holds of every accepted row's deliverable holds of every collected one |
| StageGateExample.CellsWellFormed | examples/stage_gate_0/stage_gate_0_example.py:64-71 | a deliverable built from cells with text has no optional field holding an empty string and has its VPAD flag set |
| StageGateExample.KeptWellFormed | examples/stage_gate_0/stage_gate_0_example.py:63-72 | a kept row's deliverable is well formed |
| StageGateExample.ExtractedFacts | examples/stage_gate_0/stage_gate_0_example.py:58-73 | every extracted deliverable is well formed, and a deliverable is extracted exactly when a CGT gate-0 row with deliverable text describes it |
| StageGateExample.ExtractStageGate0 | examples/stage_gate_0/stage_gate_0_example.py:41-80 | the result is the CGT gate 0 with its fixed description and the extracted deliverables in row order |
| StageGateExample.AddToGroup | examples/stage_gate_0/stage_gate_0_example.py:106-110 | one deliverable keeps the grouping well-formed: areas listed once, in first-seen order, each with a list |
| StageGateExample.GroupByArea | examples/stage_gate_0/stage_gate_0_example.py:104-110 | the grouping of all deliverables is well-formed |
| StageGateExample.InArea | examples/stage_gate_0/stage_gate_0_example.py:107 | the deliverables picked for an area all have that area name, `Unspecified` standing for an empty one |
| StageGateExample.GroupMembers | examples/stage_gate_0/stage_gate_0_example.py:104-110 | an area is grouped exactly when some deliverable names it, and its group holds that area's deliverables in their original order |
| StageGateExample.SizesFrame | examples/stage_gate_0/stage_gate_0_example.py:108-110 | the group of an unlisted area does not reach the total size |
| StageGateExample.SizesBump | examples/stage_gate_0/stage_gate_0_example.py:110 | replacing a listed area's group changes the total by the difference in sizes |
| StageGateExample.GroupSizes | examples/stage_gate_0/stage_gate_0_example.py:104-110 | the groups together hold every deliverable exactly once |
| StageGateExample.GroupDeliverables | examples/stage_gate_0/stage_gate_0_example.py:104-110 | the grouping loop's area order and lists are the grouping |
| StageGateExample.AreaId | examples/stage_gate_0/stage_gate_0_example.py:114 | an area id has no space, parenthesis or ampersand |
| StageGateExample.AreaIdPlain | examples/stage_gate_0/stage_gate_0_example.py:114 | a name without those characters is its own id |
| StageGateExample.AreaIdAmpersand | examples/stage_gate_0/stage_gate_0_example.py:114 | `&` becomes `and` |
| StageGateExample.AreaIdNotInjective | examples/stage_gate_0/stage_gate_0_example.py:114 | two area names differing only in `&` against `and` share an id |
| StageGateExample.SplitAtLastDash | examples/stage_gate_0/stage_gate_0_example.py:124 | a text ending in a dash and a dash-free part splits back into both uniquely |
| StageGateExample.LastDash | examples/stage_gate_0/stage_gate_0_example.py:124 | before a dash-free part, the dash after the prefix is the last one |
| StageGateExample.DelivUriInjective | examples/stage_gate_0/stage_gate_0_example.py:124-125 | distinct area ids or distinct positions give distinct deliverable URIs |
| StageGateExample.Literal | examples/stage_gate_0/stage_gate_0_example.py:128 | the corrected literal reads back as the value it was written for |
| StageGateExample.LiteralAsWrittenParses | examples/stage_gate_0/stage_gate_0_example.py:128-136 | escaping only `"` is the full escape, and denotes the value, for text without backslashes, tabs or line breaks |
| StageGateExample.QuoteOnlyFlat | examples/stage_gate_0/stage_gate_0_example.py:128 | without backslashes, tabs or line breaks, escaping `"` is the short-literal escape |
| StageGateExample.RawLiteralAgrees | examples/stage_gate_0/stage_gate_0_example.py:119-140 | a value without `"` is written the same raw or with its quotes escaped |
| StageGateExample.TrailingBackslashBreaks | examples/stage_gate_0/stage_gate_0_example.py:128-131 | a text ending in a backslash gives, as written, a token that is not a string literal, while the corrected literal reads back as the text |
| StageGateExample.AppendAssoc | examples/stage_gate_0/stage_gate_0_example.py:117-145 | appending in steps builds the same text as appending at once |
| StageGateExample.DelivBlocksSnoc | examples/stage_gate_0/stage_gate_0_example.py:123-145 | one more deliverable appends exactly its numbered block |
| StageGateExample.AreaBlocksSnoc | examples/stage_gate_0/stage_gate_0_example.py:113-145 | one more area appends exactly its block and its deliverables' blocks |
| StageGateExample.GenerateTtl | examples/stage_gate_0/stage_gate_0_example.py:83-147 | the text returned is the header followed by each area's section, areas in first-seen order |
| StageGateExample.AppendAreas | examples/stage_gate_0/stage_gate_0_example.py:113-145 | the outer loop appends every area's section in the order given |
| StageGateExample.AppendArea | examples/stage_gate_0/stage_gate_0_example.py:114-145 | one pass appends the area's block, then its deliverables |
| StageGateExample.AppendDeliverables | examples/stage_gate_0/stage_gate_0_example.py:123-145 | the inner loop appends each deliverable's block numbered from 1 |
| StageGateExample.UrisShape | examples/stage_gate_0/stage_gate_0_example.py:124-125 | every declared URI is some listed area's id with a position from 1 |
| StageGateExample.UrisDistinct | examples/stage_gate_0/stage_gate_0_example.py:113-145 | when the areas' ids are pairwise distinct, no deliverable URI is declared twice |
| StageGateExample.FreshAreaUris | examples/stage_gate_0/stage_gate_0_example.py:124-125 | a URI declared for earlier areas differs from every URI of an area whose id is new |
| StageGateExample.MapData | examples/stage_gate_0/stage_gate_0_example.py:241-248 | one data entry per deliverable, in order |
| StageGateExample.TallyMatchesGroups | examples/stage_gate_0/stage_gate_0_example.py:231-252 | the summary has the grouping's areas in the same order; each area's entry names it, counts its group and lists the group's data; the flat list holds every deliverable's data |
| StageGateExample.TallyAreas | examples/stage_gate_0/stage_gate_0_example.py:233-239 | the summary lists the grouped areas, in the same order |
| StageGateExample.TallyFlat | examples/stage_gate_0/stage_gate_0_example.py:252 | the flat list holds every deliverable's data, in order |
| StageGateExample.TallyEntry | examples/stage_gate_0/stage_gate_0_example.py:250-251 | a grouped area's entry names it, counts its group and lists the group's data |
| StageGateExample.SumCountsSizes | examples/stage_gate_0/stage_gate_0_example.py:251 | counts equal to group sizes add up to the sum of the sizes |
| StageGateExample.SummaryCounts | examples/stage_gate_0/stage_gate_0_example.py:214-254 | each area's count is its list's length, the counts add up to the gate's deliverable count, an area is listed exactly when a deliverable names it, and `has_owner` holds exactly when there is an owner |
| StageGateExample.CreateJsonSummary | examples/stage_gate_0/stage_gate_0_example.py:214-254 | the summary built by the loop is the gate's summary |
| GraphDb.StatementsUrl | scripts/deployment/export_to_graphdb.py:43 | the URL ends in `/statements` |
| GraphDb.StatementsUrlIgnoresSlash | scripts/deployment/export_to_graphdb.py:43 | trailing slashes on the base URL make no difference |
| GraphDb.ContextTerm | scripts/deployment/export_to_graphdb.py:47-49 | the context is in angle brackets: the stripped context itself when already bracketed, otherwise the stripped context wrapped |
| GraphDb.ContextTermIdempotent | scripts/deployment/export_to_graphdb.py:47-49 | wrapping an already wrapped context changes nothing |
| GraphDb.Endpoint | scripts/deployment/export_to_graphdb.py:42-51 | the endpoint starts with the statements URL and is exactly that URL when the context is missing or empty |
| GraphDb.EndpointContextDecodes | scripts/deployment/export_to_graphdb.py:44-51 | with a non-empty context, `?context=` follows the statements URL and its value decodes back to the bracketed context |
| GraphDb.LastIndex | scripts/deployment/export_to_graphdb.py:55 | the index found holds the character and none comes after it; -1 when there is none |
| GraphDb.Suffix | scripts/deployment/export_to_graphdb.py:55 | a suffix is empty or a dot followed by at least one dot-free character, ending the name and shorter than it |
| GraphDb.SuffixOf | scripts/deployment/export_to_graphdb.py:55 | `stem.ext` has suffix `.ext` |
| GraphDb.NoSuffix | scripts/deployment/export_to_graphdb.py:55-61 | a name without a dot, or a dot-file name, has no suffix |
| GraphDb.LastIndexLower | scripts/deployment/export_to_graphdb.py:55 | lower-casing keeps the position of the last dot |
| GraphDb.SuffixLower | scripts/deployment/export_to_graphdb.py:55 | the suffix of the lower-cased name is the lower-cased suffix |
| GraphDb.ContentTypeIgnoresCase | scripts/deployment/export_to_graphdb.py:54-61 | the content type does not depend on the case of the name |
| GraphDb.ContentTypeByExtension | scripts/deployment/export_to_graphdb.py:54-61 | `stem.ext` is typed by `.ext` in lower case |
| GraphDb.ContentTypeWithoutSuffix | scripts/deployment/export_to_graphdb.py:61 | a name without a dot, and a dot-file such as `.ttl`, are plain text |
| GraphDb.BaseName | scripts/deployment/export_to_graphdb.py:123-129 | the last component of a path holds no `/` and ends the path once trailing slashes are dropped |
| GraphDb.BaseNameOf | scripts/deployment/export_to_graphdb.py:123-129 | a name without `/` is its own last component, alone or below any directory |
| GraphDb.DotFileInDirectory | scripts/deployment/export_to_graphdb.py:54-61 | `out/.ttl` has last component `.ttl`, which has no suffix, so the file is sent as plain text |
| GraphDb.UpperTtlIsTurtle | scripts/deployment/export_to_graphdb.py:55-56 | a `.TTL` file is Turtle |
| GraphDb.AuthHeader | scripts/deployment/export_to_graphdb.py:64-68 | there is no header exactly when the user is missing or empty or the password is missing; otherwise it starts with `Basic ` |
| GraphDb.SplitColon | scripts/deployment/export_to_graphdb.py:67 | a text with a `:` is the colon-free part before the first `:`, the `:`, and the rest |
| GraphDb.SplitColonJoin | scripts/deployment/export_to_graphdb.py:67 | `user:password` with a colon-free user splits back into both |
| GraphDb.AuthHeaderDecodes | scripts/deployment/export_to_graphdb.py:64-68 | a server decoding the token recovers the user and the password, including an empty password, whenever the user has no `:` |
| GraphDb.AttemptsPolicy | scripts/deployment/export_to_graphdb.py:83-109 | every attempt before the last met a retried failure (429, 5xx or an exception); the last met a response (success, with its status), an error not retried (its code), or a retried failure once the attempt budget was spent (its code, or -1 for an exception) |
| GraphDb.Backoff | scripts/deployment/export_to_graphdb.py:81-108 | every pause lies between 1 and 30 seconds |
| GraphDb.Pauses | scripts/deployment/export_to_graphdb.py:100-108 | one pause per failed attempt, each the backoff of its attempt |
| GraphDb.BackoffClosedForm | scripts/deployment/export_to_graphdb.py:81-108 | the pauses double from 1 and stay at 30 from the sixth on |
| GraphDb.UploadFile | scripts/deployment/export_to_graphdb.py:71-109 | the loop's result is the retry policy's outcome from attempt 1, with one pause between consecutive attempts |
| GraphDb.AttemptStops | scripts/deployment/export_to_graphdb.py:91-106 | a response ends the upload with success; an error not retried or at the budget ends it with its code; an exception at the budget ends it with -1 |
| GraphDb.RetryContinues | scripts/deployment/export_to_graphdb.py:97-109 | a retried failure before the budget is spent hands over to the next attempt |
| GraphDb.PermanentErrorFailsAtOnce | scripts/deployment/export_to_graphdb.py:103 | an HTTP error that is not retried fails the upload on the first attempt |
| GraphDb.Step | scripts/deployment/export_to_graphdb.py:123-137 | a file's events never fail before the last, and the last is a failure exactly when the file exists, the run is not dry and the upload failed; a present file is listed under the last component of its path, typed by that component |
| GraphDb.Present | scripts/deployment/export_to_graphdb.py:123-137 | a file that exists is first listed under the last component of its path with that component's content type; nothing before the last event fails, and the last fails exactly when the run is not dry and the upload failed |
| GraphDb.StepListsLastComponent | scripts/deployment/export_to_graphdb.py:123-137 | a present file below a directory gives the same events as the bare name: listed under the name and typed by it |
| GraphDb.Deploy | scripts/deployment/export_to_graphdb.py:122-140 | the loop's exit code and events are those of the run over the files, each file listed and typed by the last component of its path |
| GraphDb.HandleFile | scripts/deployment/export_to_graphdb.py:123-137 | one pass of the loop gives the file's events: skipped when missing, otherwise listed as `p.name` with `detect_content_type(p)` and, unless dry, the upload's outcome |
| GraphDb.RunFails | scripts/deployment/export_to_graphdb.py:136-137 | a file whose upload fails ends the run with code 1 |
| GraphDb.RunContinues | scripts/deployment/export_to_graphdb.py:122-140 | any other file is followed by the run over the remaining files |
| GraphDb.DryRunSendsNothing | scripts/deployment/export_to_graphdb.py:130-131 | a dry run sends nothing and exits 0, with one skipped or listed event per file |
| GraphDb.QuietConcat | scripts/deployment/export_to_graphdb.py:122-131 | runs of skipped and listed files concatenate to such a run |
| GraphDb.RunStopsAtFailure | scripts/deployment/export_to_graphdb.py:122-140 | the exit code is 0 or 1, it is 1 exactly when the events end in a failed upload, and no failure comes earlier |
| GraphDb.StepWithoutFailure | scripts/deployment/export_to_graphdb.py:133-134 | a file's events without a final failure hold no failure at all |
| GraphDb.PrependNoFailure | scripts/deployment/export_to_graphdb.py:122-140 | events without failure before a well-ended run keep it well ended |
| Xlsx.Sanitize | extract_xlsx.py:62-65 | the sanitised name is non-empty, uses only `[A-Za-z0-9._-]`, and neither starts nor ends with `.` or `_` |
| Xlsx.SanitizeIdempotent | scripts/etl/extract_xlsx.py:62-65 | sanitising a sanitised name returns it unchanged |
| Xlsx.SanitizeFallback | extract_xlsx.py:64-65 | nothing survives the replacement and strip exactly when the name has no letter, digit or dash; the result is then `sheet`, and otherwise the survivors |
| Xlsx.CollapseShowsKept | scripts/etl/extract_xlsx.py:64 | a letter, digit or dash of the name is still present after the run replacement |
| Xlsx.TrimLeftStops | extract_xlsx.py:64 | the left strip stops at or before the first character it does not strip |
| Xlsx.TrimEmpty | scripts/etl/extract_xlsx.py:64 | over safe characters, the strip of `.` and `_` leaves nothing exactly when no letter, digit or dash is present |
| Xlsx.SplitFirstJoin | extract_xlsx.py:141 | splitting `a__b` on the first `__` gives back `a` and `b` when `a` has no `__` and does not end in `_` |
| Xlsx.NamingRoundTrip | scripts/etl/extract_xlsx.py:97-145 | the combined table recovers the sanitised workbook and sheet from the CSV's stem whenever the sanitised workbook has no `__` |
| Xlsx.SanitizeClean | extract_xlsx.py:62-65 | a name of safe characters that neither starts nor ends with `.` or `_` is its own sanitised form |
| Xlsx.SplitAtFirst | extract_xlsx.py:141 | `a__b__c` splits into `a` and `b__c` |
| Xlsx.NamingAmbiguous | extract_xlsx.py:97-145 | a workbook named `a__b` with sheet `c` is read back as workbook `a` and sheet `b__c`: the round trip needs its side condition |
| Columns.Filter | scripts/etl/analyze_columns.py:33-41 | a filtered list is never longer than its input |
| Columns.FilterCount | scripts/etl/analyze_columns.py:33-41 | a value is kept exactly as often as it occurs when it satisfies the test, and not at all otherwise |
| Columns.SetSize | scripts/etl/analyze_columns.py:35 | the set of values is no larger than the list |
| Columns.InsertCount | scripts/etl/analyze_columns.py:37 | inserting a value into the ranking adds exactly that value |
| Columns.InsertBelowHead | scripts/etl/analyze_columns.py:37 | whatever is placed after the head is counted no more often than it |
| Columns.InsertSorted | scripts/etl/analyze_columns.py:37 | inserting keeps counts non-increasing |
| Columns.SortByCountSpec | scripts/etl/analyze_columns.py:36-37 | the ranking has non-increasing counts and is a permutation of its input |
| Columns.Top | scripts/etl/analyze_columns.py:37 | at most `k` values are listed |
| Columns.MostCommon | scripts/etl/analyze_columns.py:37 | at most `k` pairs are returned |
| Columns.TopListed | scripts/etl/analyze_columns.py:37 | the listed values occur in the input, are pairwise distinct and have non-increasing counts |
| Columns.TopCovers | scripts/etl/analyze_columns.py:37 | a value is left out only when `k` values are listed, each at least as common |
| Columns.MostCommonSpec | scripts/etl/analyze_columns.py:36-37 | `most_common(k)` gives distinct values with their true positive counts, counts non-increasing, and leaves a value out only when `k` values at least as common are listed |
| Columns.DistinctOrder | scripts/etl/analyze_columns.py:37 | a permutation of distinct values has distinct values |
| Columns.DistinctCountOne | scripts/etl/analyze_columns.py:36 | in a list of distinct values each occurs at most once |
| Columns.StrippedParts | scripts/etl/analyze_columns.py:45 | never more kept parts than parts |
| Columns.StripWithin | scripts/etl/analyze_columns.py:45 | stripping adds no character |
| Columns.StripIdempotent | scripts/etl/analyze_columns.py:45 | stripping twice is stripping once |
| Columns.AllCleanConcat | scripts/etl/analyze_columns.py:45 | lists of clean parts concatenate to a list of clean parts |
| Columns.StripClean | scripts/etl/analyze_columns.py:45 | a non-blank piece without a comma strips to a trimmed, non-empty, comma-free part |
| Columns.StrippedPartsClean | scripts/etl/analyze_columns.py:45 | the kept parts of comma-free pieces are all trimmed, non-empty and comma-free |
| Columns.MultiValueExamples | scripts/etl/analyze_columns.py:43-47 | no more examples than values with commas |
| Columns.Take5 | scripts/etl/analyze_columns.py:47 | at most five parts, a prefix of the parts |
| Columns.PartsExample | scripts/etl/analyze_columns.py:45-47 | a value with some kept part gives an example of one to five clean parts |
| Columns.MultiValueExamplesClean | scripts/etl/analyze_columns.py:43-47 | every example holds between one and five trimmed, non-empty, comma-free parts |
| Columns.Values | scripts/etl/analyze_columns.py:38 | the examples are the top values, in order |
| Columns.SummarizeCounts | scripts/etl/analyze_columns.py:31-58 | total is non-empty plus empty; unique and with-commas counts are at most the non-empty count; at most five top pairs, at most five multi-value examples; the examples are the top values |
| Columns.SummarizeLists | scripts/etl/analyze_columns.py:33-47 | the top five are non-blank values with their counts, most common first; every multi-value example holds one to five clean parts |
| Columns.LoadColumns | scripts/etl/analyze_columns.py:61-77 | no record gives no headers and no data; a single record is an error at the second-row lookup; otherwise the headers are the stripped second record and each header collects the stripped cells under it from every padded or truncated data record |
| Columns.Collect | scripts/etl/analyze_columns.py:70-76 | the loop gives one list per header, each the column over the data records |
| Columns.AppendRow | scripts/etl/analyze_columns.py:75-76 | each cell, stripped, is appended to the list of the header above it and to no other |
| Columns.ColumnOfDistinct | scripts/etl/analyze_columns.py:70-76 | with distinct headers each header's list has exactly one stripped value per data record, the one in its column |
| Columns.CellsUnderDistinct | scripts/etl/analyze_columns.py:75-76 | with distinct headers one record adds exactly its stripped cell to each header |
| Columns.CellsUnderAbsent | scripts/etl/analyze_columns.py:75-76 | a name that is not a header receives nothing |
| Recommendation.GatesSnoc | scripts/analysis/stage_gate_recommendation.py:47-48 | one more row adds its gate exactly when the filter counts it |
| Recommendation.StatsOfSnoc | scripts/analysis/stage_gate_recommendation.py:34-66 | one more row updates its own gate's entry and leaves every other gate's entry alone |
| Recommendation.StatsOfAbsent | scripts/analysis/stage_gate_recommendation.py:19-27 | a gate without a counted row is still at the default entry |
| Recommendation.TallyRows | scripts/analysis/stage_gate_recommendation.py:34-66 | the row loop creates entries for exactly the gates with a counted row, each holding that gate's tally |
| Recommendation.IgnoredRow | scripts/analysis/stage_gate_recommendation.py:35-47 | a row with fewer than 11 cells, another stream or a gate that is not all digits changes no entry and adds no gate |
| Recommendation.DescriptionIsFirst | scripts/analysis/stage_gate_recommendation.py:50-51 | a gate's description is empty exactly when all its rows have an empty one, and otherwise it is that of the gate's first row with a non-empty description |
| Recommendation.CountersBounded | scripts/analysis/stage_gate_recommendation.py:53-66 | the deliverable, owner and status counters never exceed the gate's row count, and a gate has an entry exactly when it has a counted row |
| Recommendation.CollectedSound | scripts/analysis/stage_gate_recommendation.py:56-60 | every collected area or category is the stripped non-blank cell of one of the gate's rows |
| Recommendation.CollectedComplete | scripts/analysis/stage_gate_recommendation.py:56-60 | every stripped non-blank area or category cell of the gate's rows is collected |
| Recommendation.Score | scripts/analysis/stage_gate_recommendation.py:70-103 | the factors are one deliverable band, one area band and the owner factor when owners cover more than half the deliverables; the score is their points, between 2 and 7, with three factors exactly when coverage is good |
| Recommendation.PointsOfFactors | scripts/analysis/stage_gate_recommendation.py:73-100 | the score is the sum of the weights of the two bands and the optional owner factor |
| Recommendation.AnalyzeAllStageGates | scripts/analysis/stage_gate_recommendation.py:13-105 | fewer than two records stop the reader; otherwise every gate with a counted data row, and only those, has an entry holding its tally and its score |
| Recommendation.ScoreAll | scripts/analysis/stage_gate_recommendation.py:69-103 | the scoring loop gives every entry its score and factors and adds no entry |
| Recommendation.AssessBounds | scripts/analysis/stage_gate_recommendation.py:70-103 | every assessed gate scores between 2 and 7 with two or three factors |
| MindMap.ClassifyStageFamily | scripts/mindmap/extract_mindmap_augmented.py:217-224 | a text is in the stage family exactly when it mentions `stage` or `gate` in any case, and `stage_gate` exactly when it mentions both |
| MindMap.ClassifyGeneral | scripts/mindmap/extract_mindmap_augmented.py:215-240 | a text is `general` exactly when it holds none of the keywords the rules look for |
| MindMap.ClassifyIgnoresCase | scripts/mindmap/extract_mindmap_augmented.py:217 | upper- or lower-casing the text first does not change its type |
| MindMap.DetectModality | scripts/mindmap/extract_mindmap_augmented.py:242-260 | the two keyword loops return CGT at the first CGT keyword, else Protein at the first protein keyword, else none |
| MindMap.ModalityCases | scripts/mindmap/extract_mindmap_augmented.py:244-260 | the modality ignores case; a text naming a CGT keyword is CGT even when it also names a protein keyword; there is none exactly when neither list hits |
| MindMap.WordEnd | scripts/mindmap/extract_mindmap_augmented.py:266-284 | a literal matched at a position ends within the text |
| MindMap.SkipSpaces | scripts/mindmap/extract_mindmap_augmented.py:266-282 | `\s*` stops at the end of the text or at a non-space |
| MindMap.DigitsFrom | scripts/mindmap/extract_mindmap_augmented.py:266-284 | the digit run is a stretch of the text made of digits only |
| MindMap.SearchLeftmost | scripts/mindmap/extract_mindmap_augmented.py:272-288 | the search finds nothing exactly when no position matches, and otherwise the match at the leftmost matching position |
| MindMap.SearchDigits | scripts/mindmap/extract_mindmap_augmented.py:272-274 | a captured group is a non-empty run of digits that occurs in the text |
| MindMap.ExtractNumber | scripts/mindmap/extract_mindmap_augmented.py:271-276 | the loop returns the group of the first pattern, in list order, that matches anywhere, or none |
| MindMap.FirstMatchDigits | scripts/mindmap/extract_mindmap_augmented.py:262-292 | a stage or gate number is a non-empty run of digits taken from the text |
| MindMap.DisplayText | scripts/mindmap/extract_mindmap_augmented.py:136-140 | a stored text is never empty, and an extracted non-empty text is kept |
| MindMap.LinksCount | scripts/mindmap/extract_mindmap_augmented.py:168-173 | with non-empty ids a tree of n topics adds n relationships below a parent and n - 1 at the root |
| MindMap.LinksAllCount | scripts/mindmap/extract_mindmap_augmented.py:195-198 | children below a non-empty id add one relationship per topic |
| MindMap.PickSnoc | scripts/mindmap/extract_mindmap_augmented.py:160-165 | one more tracked node extends the protein or CGT pick by its id exactly when its modality is that one |
| MindMap.PickDisjoint | scripts/mindmap/extract_mindmap_augmented.py:160-165 | the protein and CGT picks together are part of the tracked list, counted with repetition |
| MindMap.RecordKeeps | scripts/mindmap/extract_mindmap_augmented.py:157-173 | storing a node with a text under a stored parent or none keeps relationships between stored nodes, texts non-empty, and the picks matched to the tracked list |
| MindMap.Extractor.StageListsDisjoint | scripts/mindmap/extract_mindmap_augmented.py:160-165 | `protein_nodes` and `cgt_nodes` are disjoint parts of `stage_nodes`, counted with repetition |
| MindMap.Extractor.constructor | scripts/mindmap/extract_mindmap_augmented.py:127-130 | the extractor starts with no nodes, no relationships, empty tracking lists and the counter at 0 |
| MindMap.Extractor.IdOf | scripts/mindmap/extract_mindmap_augmented.py:129 | a topic with a non-empty `ObjectId` has a non-empty id |
| MindMap.Extractor.AddNode | scripts/mindmap/extract_mindmap_augmented.py:129-173 | the counter moves on by one; the node built from the display text is `NodeOf` of the topic, and the collections become exactly `Store` of the old ones with the topic's entry: stored under its id, tracked by type and modality, linked to a non-empty parent |
| MindMap.Extractor.Record | scripts/mindmap/extract_mindmap_augmented.py:157-173 | the node is stored under its id; a stage-family node is appended to the stage list and to the protein or CGT list by modality; a non-empty parent gets one `hasChild`; nothing else changes |
| MindMap.Extractor.ProcessTopic | scripts/mindmap/extract_mindmap_augmented.py:127-213 | the topic's id is stored; below a non-empty parent the first new relationship is the topic's `hasChild`; a stage-family topic is the first new entry of the stage list and, by modality, of the protein or CGT list; every topic of the tree moves the counter on by one, every topic below a non-empty id adds one relationship, earlier relationships, nodes and tracking lists are kept, and the node returned is the topic's own |
| MindMap.Extractor.VisitChildren | scripts/mindmap/extract_mindmap_augmented.py:192-211 | the children loop moves the counter on by the children's topic count and adds their relationships, keeping what was recorded |
| MindMap.Made | scripts/mindmap/extract_mindmap_augmented.py:127-173 | each visit of `process_topic_node` gives one stored entry |
| MindMap.MadeAt | scripts/mindmap/extract_mindmap_augmented.py:129-157 | the entry of a visit keeps the visit's id and parent id, with the node data made from its topic, level and counter |
| MindMap.MadeConcat | scripts/mindmap/extract_mindmap_augmented.py:192-211 | the entries of consecutive visits are the entries of each part, in order |
| MindMap.PreorderMade | scripts/mindmap/extract_mindmap_augmented.py:127-213 | a tree's entries are the topic's own entry, numbered by the counter after its increment, then its children's trees' entries below its id |
| MindMap.PreorderAllMade | scripts/mindmap/extract_mindmap_augmented.py:192-211 | the first k + 1 children's entries are the first k children's, then child k's, numbered on past the first k children's topics |
| MindMap.PreorderShape | scripts/mindmap/extract_mindmap_augmented.py:127-213 | a tree gives one visit per topic, the topic's own first under the given parent, and every later visit's parent is the id of an earlier one |
| MindMap.PreorderAllShape | scripts/mindmap/extract_mindmap_augmented.py:192-211 | children's trees give one visit per topic, and every visit's parent is the given id or the id of an earlier visit |
| MindMap.ApplyConcat | scripts/mindmap/extract_mindmap_augmented.py:127-213 | storing two runs of entries in turn is storing their concatenation |
| MindMap.TreeStores | scripts/mindmap/extract_mindmap_augmented.py:127-213 | the stores of a tree are the store of the topic's own entry (what `AddNode` does), then the stores of its children's trees |
| MindMap.ChildrenStores | scripts/mindmap/extract_mindmap_augmented.py:192-211 | one turn of the loop over the children: the stores of the first k + 1 children's trees are those of the first k, then those of child k's tree |
| MindMap.ApplyLists | scripts/mindmap/extract_mindmap_augmented.py:160-173 | after the stores, the relationships gain exactly one `hasChild` per entry with a parent, and the stage, protein and CGT lists exactly the tracked ids of their modality, all in order |
| MindMap.ApplyNodesStep | scripts/mindmap/extract_mindmap_augmented.py:157 | the node map after the stores is the map before the last entry, updated by it |
| MindMap.ApplyKeys | scripts/mindmap/extract_mindmap_augmented.py:157 | an id is stored after the stores exactly when it was stored before or some entry has it |
| MindMap.ApplyLastWins | scripts/mindmap/extract_mindmap_augmented.py:157 | an entry whose id no later entry reuses keeps its data: a later topic with the same id overwrites |
| MindMap.ApplyUntouched | scripts/mindmap/extract_mindmap_augmented.py:157 | a stored id no entry names keeps its old data |
| MindMap.PairsHead | scripts/mindmap/extract_mindmap_augmented.py:168-173 | when the first entry has a parent, its `hasChild` is the first pair |
| MindMap.TopicStored | scripts/mindmap/extract_mindmap_augmented.py:127-173 | after a tree is processed the topic's id is stored, and below a non-empty parent the first new relationship is the topic's `hasChild` |
| MindMap.SubstChar | scripts/mindmap/extract_mindmap_augmented.py:371 | replacing a character by one character keeps the length and changes only that character |
| MindMap.SafeIdSpec | scripts/mindmap/extract_mindmap_augmented.py:371 | a safe id keeps the length, turns every space and hyphen into `_`, and keeps every other character in place |
| MindMap.SafeIdMerges | scripts/mindmap/extract_mindmap_augmented.py:371 | ids differing only by a space against a hyphen map to the same subject |
| MindMap.NodeClassTracked | scripts/mindmap/extract_mindmap_augmented.py:375-386 | a node gets a class other than `ex:MindMapNode` exactly when it is tracked in `stage_nodes`; modality matters only for `stage_gate` nodes, whose three classes differ |
| Gist.ExtractEntities | validate_gist_alignment.py:13-35 | the classes are the names heading a class pattern and the properties the names heading a property pattern |
| Gist.ExtractMappings | validate_gist_alignment.py:38-60 | the mapped classes are the names subclassing a gist class or a restriction; the mapped properties also include every object property |
| Gist.ObjectPropertyIsMapped | validate_gist_alignment.py:56-58 | any name declared `a owl:ObjectProperty` in the alignment counts as mapped |
| Gist.MappedAreDeclared | validate_gist_alignment.py:22-58 | every pattern that maps a name also declares it |
| Gist.Issues | validate_gist_alignment.py:73-86 | at most two issues, each naming at least one name, classes before properties |
| Gist.NoIssuesIff | validate_gist_alignment.py:73-86 | no issue iff every mapped class is a base class and every mapped property is a base property or `lotOf` |
| Gist.IssueNames | validate_gist_alignment.py:74-86 | a name is listed in the class issue iff mapped but not a base class, and in the property issue iff mapped, not a base property and not `lotOf` |
| Gist.ValidateFiles | validate_gist_alignment.py:114-140 | exit code 1 with no issues when a file is missing; otherwise the issues of the two files, and code 0 iff there are none |
| Gist.SelfAlignmentPasses | validate_gist_alignment.py:63-86 | a file checked against itself reports no issue |

## Left out

- File, CSV and JSON input and output are outside the model: globbing, directory creation, reading files, writing the Turtle and JSON outputs, loading and saving the identifier mapping files, and printing. Rows and file contents are inputs, and the Turtle text is the result. The mapping file is saved by a plain overwrite, and nothing here claims the save is atomic.
- `uuid.uuid5` (SHA-1 inside), base64 encoding and `urllib.parse.quote` are deterministic function parameters. Nothing is claimed about collisions of the eight-character token.
- `datetime.now` is a `now` parameter. `time.sleep` is not performed; the model returns the list of pauses.
- The HTTP requests of the GraphDB uploader are not performed. The outcome of each attempt is a parameter.
- Python's Unicode behaviour is modelled on ASCII:
  - `lower`, `upper`, `isdigit`, `\w` and `\d` work on ASCII characters only;
  - `strip` and `\s` remove the ASCII and Latin-1 spaces but not the wider Unicode spaces (U+1680, U+2000 to U+200A, U+2028, U+2029, U+202F, U+205F, U+3000);
  - `'İ'.lower()` yields two characters in Python, and the slug of such a name differs from the model's.
- Cells that are `None` are not modelled: a short CSV row is padded with empty strings by the reader, and every cell is a string.
- Floating point is not modelled:
  - the readiness percentage in `get_gate_readiness`;
  - the coverage percentages;
  - file sizes;
  - the owner test `has_owners > deliverable_count * 0.5`, which is stated over integers as `2 * owners > deliverables`.
- Regular expressions are not modelled in general. The patterns the scripts use are written out as small matchers: the slug runs, `(Backup X)`, the stage and gate patterns, and the patterns of the syntax scanner. In validate_gist_alignment.py the statements its patterns find are the input.
- The mind-map extractor:
  - `extract_mmap_data`, `decode_and_extract_xml`, `extract_text_from_node` and `extract_all` (HTML, base64, XML and `html.unescape`) are not part of this model; a topic is given by its text, its ObjectId and its children;
  - of `generate_augmented_ttl`, only the node identifiers and classes are modelled, not the rest of the emitted text.
- scripts/etl/extract_mindmap_data.py and scripts/mindmap/diagnose_xml_structure.py are not part of this model.
- The SPARQL clients test_gist_queries.py and scripts/validation/test_gist_queries.py are not part of this model. The same holds for production_readiness_check.py, the mock-data generator and the presentation scripts under scripts/analysis.
- Not modelled in examples/stage_gate_0/test_stage_gate_0.py:
  - `simulate_workflow` draws deliverables with `random.sample`, so it is left out; the transitions it calls are modelled;
  - `validate_structure`, `_check_deliverable_links`, `run_sparql_simulation` and `main` (file checks, rdflib and printing) are left out.
- Not modelled in examples/stage_gate_0/stage_gate_0_example.py: `generate_sparql_queries` (constant query text) and `main`. The JSON summary is returned as a structure, not rendered as JSON text.
- Not modelled in scripts/validation/verify_ttl_files.py: the `rapper` path, `check_imports_and_dependencies`, `analyze_ttl_content` and `main`.
- `generate_recommendation_report` and `main` in scripts/analysis/stage_gate_recommendation.py only print, so they are left out.
- The `main` functions of scripts/etl/analyze_columns.py and of the generators are left out; so is argument parsing in export_to_graphdb.py. Their work is file handling and printing around the modelled functions.
- Deploy: `Path(f).resolve()` is modelled only as taking the last component of the path after trailing slashes; following symbolic links and collapsing `.` and `..` components need the filesystem and are not modelled, and a skipped file is reported under its argument rather than its resolved path.
- ProcessTopic: the method's contract states the topic's own effects (its id stored, its `hasChild` first, its tracking entries first) and, for the whole tree, the counter, the relationship count and that nothing earlier is lost; it does not state that the new collections are exactly `Apply(old collections, Made(Preorder(topic, ...), NodeOf))`. That exact content is proved about the reference functions (`TreeStores`, `ChildrenStores`, `ApplyLists`, `ApplyKeys`, `ApplyLastWins`, `ApplyUntouched`), and `AddNode` is tied to `Store`, but carrying the equation through the recursion exceeds the verifier's resource bound once the text classification in `NodeOf` is unfolded.
- VisitChildren: for the same reason, the contract states the counter, the relationship count and that nothing earlier is lost, not the exact stores of the children's trees; `ChildrenStores` states one turn of the loop about the reference functions.
- The pandas and openpyxl work in both copies of extract_xlsx.py is left out. Only the file naming and its split are modelled.
- The corrected escapers and the corrected SME close are not used by the generators. They stand beside the as-written versions to state the evidently intended behaviour (see "## Findings").

## Findings

| source | as written | input that shows it | evidently intended | confidence | as-written member | corrected member |
|---|---|---|---|---|---|---|
| scripts/etl/generate_cmc_ttl_gupri.py:142-146 | the long form escapes only backslashes and `"""` runs, then closes with `"""` | a value `a`, LF, `"`: the token ends in four quotes and does not parse as a Turtle literal | a long literal that denotes the value, with a trailing `"` escaped | high (not executed) | Turtle.GupriTrailingQuoteBreaks | Turtle.EscapeGupriDenotes |
| scripts/etl/generate_lexicon_ttl.py:61-64 | the same long form after the strip | a definition `a`, LF, `"` | a long literal that denotes the stripped value | high (not executed) | Turtle.LexiconTrailingQuoteBreaks | Turtle.EscapeLexiconDenotes |
| scripts/etl/generate_lexicon_ttl.py:85 | the quality keyword `CoA` is searched for in the upper-cased abbreviation, so it never matches | abbreviation `CoA`, definition `Certificate of Analysis`: the category is Process | `COA` is a quality term | high (not executed) | Lexicon.CoaCounterexample | Lexicon.CoaIsQuality |
| scripts/etl/generate_sme_ttl.py:208 | the last line of a block has every ` ;` replaced by ` .`, including one inside a literal | an expert with no roles and specialty `QC ; release`: the specialty is written as `QC . release` | only the statement terminator changes | high (not executed) | Sme.CloseRewritesLiteral | Sme.CloseEndsStatement |
| examples/stage_gate_0/stage_gate_0_example.py:128 | only `"` is escaped in the deliverable text and the owner | deliverable text ending in a backslash: the closing quote is escaped and the token does not end | a short literal that denotes the text | high (not executed) | StageGateExample.TrailingBackslashBreaks | StageGateExample.Literal |
