# SentencePairGenerator: the query builders, selectors and template catalog

SentencePairGenerator writes Ainu–Japanese sentence pairs for a corpus. It
loops over a fixed catalog of sentence templates. For each template it:

1. picks one random verb row per verb requirement byte, and one random noun
   row per noun category, from a SQLite lexicon;
2. renders an Ainu sentence and a Japanese sentence from the chosen forms.

This project models that core in Dafny:

- **Masks** (`masks.dfy`): the requirement byte. The high nibble holds the
  valency classes `VERB0..VERB3`. Bits 0..2 of the low nibble hold the
  plurality classes `V_BOTH`, `V_SING` and `V_PLUR`. Bit 3 (0x08) is never
  read.
- **Decoder** (`decoder.dfy`): the nested loops of `build_verb_query`. They
  produce the list of `(trans, plur)` conditions a byte asks for.
- **VerbQuery** (`verb_query.dfy`): the SQL text `build_verb_query` returns,
  and a reader that decodes that text back into the filter it expresses.
- **NounQuery** (`noun_query.dfy`): the SQL text `get_nouns` builds for one
  pair of category patterns, and its reader.
- **Texts** (`texts.dfy`): facts about concatenated texts that both query
  modules use to cut a query into its fixed head, its middle and its tail.
- **Lexicon** (`lexicon.dfy`): the store, given just enough meaning to say
  what a query selects.
  - The store reads the query text back and keeps the matching rows.
  - It picks one of them with an abstract random draw.
  - A query with no condition (`WHERE ()`) or one it cannot read is a
    `MalformedQuery` error.
- **Sampling** (`sampling.dfy`): the loop shared by both selectors. It makes
  one `LIMIT 1` query per slot, appends at most one row per slot, and the
  first error ends the call.
- **Selectors** (`selectors.dfy`): `get_verbs` and `get_nouns` as methods over
  a text-keyed store oracle, plus what the rows they return satisfy.
- **Renderers** and **Templates** (`render.dfy`, `templates.dfy`):
  - each `format!` closure is modelled as a list of pieces (fixed text or a
    slice index), where an index past the end of a slice is a panic;
  - the `string_vec!` macro. The catalog writes its noun entries as the
    literals `["*"]` and `["*", "*"]`, which is what `StringVec` returns for
    those arguments;
  - the eleven templates, transcribed, and what the catalog guarantees.
- **Driver** (`generate.dfy`): one iteration of the inner loop of `main`. It
  runs `get_verbs`, then `get_nouns`, then both renderers.

Where the store's behaviour matters, the selectors and the driver are stated
over per-slot answer functions. `Selectors.VerbAnswersFit` and
`Selectors.NounAnswersFit` say which answers a store holding a given table may
give. `Lexicon.VerbStoreAnswers` and `Lexicon.NounStoreAnswers` show that the
concrete store is such a store.

## Model

| member | source | states |
|---|---|---|
| Masks.NeedsParticleIff | src/main.rs:63-67 | `needs_particle` is raised exactly when bit 0x40 or bit 0x80 of the byte is set |
| Masks.MasksDecodeToTheirClass | src/templates.rs:14-24 | each valency mask sets exactly its own valency bit and no plurality bit; each plurality mask sets exactly its own plurality bit and no valency bit |
| Masks.MasksDisjoint | src/templates.rs:14-24 | valency masks lie in the high nibble and plurality masks in the low nibble; any two different masks share no bit |
| Decoder.PluralityConditions | src/main.rs:69-73 | the inner loop yields, for valency `ii`, one condition per set plurality bit from `jj` onwards, in ascending order |
| Decoder.ValencyConditions | src/main.rs:63-75 | the outer loop yields exactly the accepted conditions with valency at least `ii`, in nested ascending order |
| Decoder.Conditions | src/main.rs:60-75 | the condition list holds exactly the accepted (valency, plurality) pairs, with no repeats, in nested ascending order, and every number is below 4 or 3 |
| Decoder.AscendingUnique | src/main.rs:63-75 | two strictly ascending condition lists with the same members are equal, so the loop order fixes the list |
| Decoder.ConditionsCharacterized | src/main.rs:60-75 | a list is the decoded list if and only if it is ascending and holds exactly the pairs whose valency bit and plurality bit are both set (the cross product) |
| Decoder.ConditionsRespectBits | src/main.rs:63-75 | two bytes that agree on valency bits 0..3 and plurality bits 0..2 give the same condition list and the same particle flag |
| Decoder.Bit3Ignored | src/main.rs:69-73 | flipping bit 0x08 changes neither the condition list nor the particle flag |
| Decoder.ConditionsEmptyIff | src/main.rs:60-75 | the condition list is empty exactly when `v & 0xF0 == 0` or `v & 0x07 == 0` |
| VerbQuery.FilterOf | src/main.rs:59-75 | the decoded filter holds exactly the accepted conditions, and it requires a particle exactly when `v & 0xC0 != 0` |
| VerbQuery.ConditionListRoundTrip | src/main.rs:71-77 | the `" OR "`-joined disjuncts read back as the conditions they were built from, in the same order |
| VerbQuery.VerbQueryRoundTrip | src/main.rs:77-83 | reading any verb query text back gives the filter it was built from: conditions, their order, and the particle flag |
| VerbQuery.BuildVerbQueryDecodes | src/main.rs:59-84 | the query for byte `v` decodes to exactly `Conditions(v)` and to a particle requirement exactly when `v & 0xC0 != 0` |
| VerbQuery.VerbQueryFrame | src/main.rs:77-83 | every verb query starts with `SELECT ainu, jpan, particle FROM verbs WHERE (` and ends with ` ORDER BY RANDOM() LIMIT 1` |
| VerbQuery.ParticleClauseIff | src/main.rs:79-83 | ` AND particle <> ''` stands just before the tail exactly when bit 0x40 or 0x80 is set |
| VerbQuery.QueryIgnoresBit3 | src/main.rs:59-84 | flipping bit 0x08 never changes the query text |
| VerbQuery.EmptyWhereIff | src/main.rs:77 | the query reads `WHERE ()` exactly when the byte has no valency bit or no plurality bit 0..2 set |
| VerbQuery.EmptyWhereText | src/main.rs:77 | a filter's text reads `WHERE ()` exactly when its condition list is empty |
| NounQuery.QuoteIndex | src/main.rs:92-95 | the first quote position: everything before it is quote-free, and it holds a quote unless it is the end |
| NounQuery.NounQueryRoundTrip | src/main.rs:91-95 | a noun query reads back as the pattern pair it embeds, the first pattern against `cat1` and the second against `cat2`, if and only if neither pattern holds a single quote |
| NounQuery.QuoteIndexAfter | src/main.rs:92-95 | in a quote-free text followed by the separator, the first quote is the separator's opening quote |
| Lexicon.MatchingVerbs | src/main.rs:46-53 | the rows a verb filter keeps are exactly the table rows that satisfy it |
| Lexicon.SatisfiedMaskWellFormed | src/main.rs:60-75 | a byte that some row satisfies decodes to at least one condition |
| Lexicon.VerbQuerySelects | src/main.rs:40-53 | the store's answer to `build_verb_query(v)` is an error exactly when `v` decodes to no condition; otherwise it is a table row satisfying `v`, or no row only when the table has none |
| Lexicon.VerbStoreAnswers | src/main.rs:46-53 | the concrete store, with any random draws, answers every verb query as the byte's meaning allows |
| Lexicon.MatchingNouns | src/main.rs:101-107 | the rows a noun query keeps are exactly the table rows whose `cat1` or `cat2` matches its pattern |
| Lexicon.NounQuerySelects | src/main.rs:91-107 | for a quote-free pattern pair, the store's answer is never an error: it is a table row matching the pair, or no row only when the table has none |
| Lexicon.NounStoreAnswers | src/main.rs:101-107 | the concrete store, with any random draws, answers every quote-free noun query as the pair's meaning allows |
| Sampling.Sample | src/main.rs:39-54 | a successful per-slot collection has at most one row per slot |
| Sampling.FailurePersists | src/main.rs:46-47 | once the queries of a prefix of the slots fail, the whole call returns that failure |
| Sampling.SampleFailsIff | src/main.rs:46-47 | the collection fails exactly when some slot's requirement is one whose query fails |
| Sampling.SampleFull | src/main.rs:49-53 | a successful collection fills every slot exactly when every requirement has a candidate row |
| Sampling.SampleAligned | src/main.rs:49-53 | when every slot is filled, row `k` answers requirement `k`: no row is shifted into another slot |
| Sampling.Slots | src/main.rs:39-54 | for a successful collection, the slots the rows came from: one per row, strictly increasing, each a slot of the call, and the query of slot `Slots[i]` answered with row `i` itself |
| Sampling.SampleRowsFromSlots | src/main.rs:49-53 | when every answer row fits its requirement, every row of a successful collection, full or short, fits the requirement of the slot it came from |
| Selectors.VerbColumnsOf | src/main.rs:49-53 | the three output vectors have one entry per row, row-aligned: Ainu form, Japanese form and particle of row `k` at index `k` |
| Selectors.NounColumnsOf | src/main.rs:104-107 | the two output vectors have one entry per row, row-aligned |
| Selectors.GetVerbs | src/main.rs:33-57 | `get_verbs` fails exactly when, and with the error with which, the per-slot collection fails. Otherwise it returns that collection's columns: three vectors of equal length at most the number of bytes, all empty for no bytes |
| Selectors.GetNouns | src/main.rs:86-111 | `get_nouns` fails exactly when the per-slot collection fails, with its error. Otherwise it returns that collection's columns: two vectors of equal length at most the number of requirements, both empty for none |
| Selectors.VerbAnswersOfStore | src/main.rs:40-53 | a store answering the query texts soundly answers every byte as its meaning allows |
| Selectors.NounAnswersOfStore | src/main.rs:91-107 | a store answering the query texts soundly answers every quote-free pattern pair as its meaning allows |
| Selectors.SampleVerbsSlots | src/main.rs:33-57 | the verb collection fails exactly when some byte decodes to no condition. Otherwise it fills every slot exactly when every byte has a satisfying row, and then row `k` is a table row satisfying byte `k` |
| Selectors.SampleNounsSlots | src/main.rs:86-111 | for quote-free pairs the noun collection never fails. It fills every slot exactly when every pair has a matching row, and then row `k` is a table row matching pair `k` |
| Selectors.SampleVerbsRows | src/main.rs:39-53 | even when some slots got no row, every row `get_verbs` collects is a table row satisfying the byte of the slot it came from, so it has a non-empty particle whenever that byte needs one |
| Selectors.SampleNounsRows | src/main.rs:91-107 | even when some slots got no row, every row `get_nouns` collects for quote-free pairs is a table row matching the pair of the slot it came from |
| Selectors.RepeatedSlotRepeatsRow | src/main.rs:39-54 | slots are drawn independently: two slots with the same byte over a one-row table both receive that row |
| Renderers.PieceText | src/templates.rs:39-40 | a `format!` argument yields text exactly when its index is within its slice |
| Renderers.Render | src/templates.rs:39-40 | a renderer succeeds exactly when every index it reads is within its slice; otherwise it panics |
| Renderers.RenderAppend | src/templates.rs:39-40 | rendering concatenated piece lists concatenates their renderings |
| Renderers.RenderIgnoresExtra | src/templates.rs:39-40 | elements after the indices a renderer reads never change its output |
| Templates.StringVec | src/templates.rs:1-12 | `string_vec!` yields a vector of the same length holding the arguments in order |
| Templates.RenderAinu | src/templates.rs:30 | the Ainu renderer succeeds exactly when it indexes only within the Ainu verb and noun slices, with no particle slice |
| Templates.RenderJpan | src/templates.rs:31 | the Japanese renderer succeeds exactly when it indexes only within the Japanese verb, noun and particle slices |
| Templates.CatalogShape | src/templates.rs:34-106 | the catalog holds 11 templates, each with at most two verb slots and one or two noun slots, every noun entry `"*"` |
| Templates.CatalogMasks | src/templates.rs:37-99 | the catalog's three requirement bytes each decode to some condition; the two transitive ones carry the VERB2 bit and need a particle |
| Templates.CatalogWellFormed | src/templates.rs:34-106 | every catalog template is well formed: usable requirements, declared indices only, last slots read, particles only from VERB2 slots |
| Templates.CatalogRequirementsUsable | src/templates.rs:34-106 | every verb byte of the catalog decodes to some condition, and every noun entry is quote-free |
| Templates.CatalogAinuIndicesDeclared | src/templates.rs:34-106 | every Ainu renderer reads only verb and noun indices below its template's slot counts, and no particle |
| Templates.CatalogJpanIndicesDeclared | src/templates.rs:34-106 | every Japanese renderer reads only verb, noun and particle indices below its template's slot counts |
| Templates.CatalogAinuSlotsRead | src/templates.rs:34-106 | every Ainu renderer reads its template's last verb slot and its last noun slot |
| Templates.CatalogJpanSlotsRead | src/templates.rs:34-106 | every Japanese renderer reads its template's last verb slot and its last noun slot |
| Templates.CatalogParticlesFromTransitive | src/templates.rs:34-106 | every particle a Japanese renderer reads comes from a slot whose byte has the VERB2 bit and needs a particle |
| Templates.WellFormedMasksDecode | src/main.rs:77 | no verb query of a well-formed template reads `WHERE ()` |
| Templates.FirstTemplateAinu | src/templates.rs:36-41 | template 1's Ainu sentence exists exactly when there is a noun and a verb, and it is `nouns[0] + " ku= " + verbs[0] + "."` |
| Driver.GeneratePair | src/main.rs:19-23 | the driver's steps give the outcome `Generate` describes. They stop with a query error exactly when `get_verbs` or `get_nouns` fails |
| Driver.GenerateWellFormed | src/main.rs:17-23 | for a well-formed template, no query fails, and a pair comes out exactly when every slot has a candidate row; otherwise a renderer panics |
| Driver.GeneratedPairFits | src/main.rs:17-23 | in a generated pair, slot `k` holds a table row satisfying requirement `k`, and every particle the Japanese sentence reads is non-empty |
| Driver.GeneratedFull | src/main.rs:19-23 | a pair comes out of a well-formed template only when both selectors succeeded and filled every slot |
| Driver.FullRowsFit | src/main.rs:19-23 | when both selectors filled every slot of a well-formed template, slot `k` holds a table row satisfying requirement `k`, and every particle the Japanese renderer reads is non-empty |
| Driver.FitsExactly | src/main.rs:22-23 | with no more rows than slots, a well-formed template renders exactly when every slot got its row |
| Driver.ParticlesRead | src/main.rs:23 | when every slot holds a row satisfying its byte, every particle a well-formed Japanese renderer reads is non-empty |
| Driver.CatalogGenerates | src/main.rs:17-23 | every catalog template, asked of a sound store, never fails a query, and gives a pair exactly when every slot has a candidate row |

## Left out

- Program arguments, `Connection::open`, `println!` and the verbose query echo
  are I/O and are not modelled. The 1000-iteration outer loop and the line
  counter `index` only repeat and number the modelled step.
- `rusqlite` itself is not modelled. A `row.get` error (a NULL column) is not
  modelled: every row carries three strings and two numbers. `prepare` errors
  are modelled only as the `MalformedQuery` answer.
- `ORDER BY RANDOM()` is a per-slot draw (`draw: nat -> nat`); the model
  picks the matching row at `draw(k)` modulo the number of matches.
  Randomness itself is not modelled.
- SQL `LIKE` is an abstract predicate `like`. Under SQLite's real `LIKE`, the
  catalog's `'*'` is not a wildcard and matches only a literal `*`. No
  property here depends on what `LIKE` means.
- A noun pattern holding a single quote produces a query the model's store
  cannot read (`MalformedQuery`). What a real store would do with such text
  (an SQL injection) is not modelled; the catalog's entries are all `"*"`.
- The per-row `while let` loop of the selectors is modelled as at most one row
  per query, because every query carries `LIMIT 1`.
- The selectors issue one `LIMIT 1` query per slot, so slots are sampled with
  replacement.
- `noun_types` is a `Vec<String>` in the catalog, but `get_nouns` takes
  pairs of strings. This does not type-check as written. The model passes a
  catalog entry `e` as the pair `(e, e)`, the same pattern for both category
  columns.
- Templates.CatalogAinuSlotsRead: states that the renderer reads the last slot
  of each kind, not that it reads every slot. Reading the last slot is what
  makes a short selector result panic.
- Templates.CatalogJpanSlotsRead: the same, for the Japanese renderer.
- Closure mechanics (function pointers, borrowing) are replaced by data: a
  renderer is its list of pieces.
- Templates 8 and 10 are identical in the source. The catalog keeps both, so
  one shape is drawn twice as often.
