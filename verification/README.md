# Verification of the Infovox 230 SAPI5 bridge

A SAPI4 speech engine is run by a worker process and offered to applications as a SAPI5 engine. An
application's text goes through a tag scanner and a plan builder (SAPI side), over a pipe (client), through a
queue (worker) into the engine; the engine's bytes come back through the worker's audio sink, the pipe and the
SAPI side's trimming to the host; word and bookmark positions come back with them. The engine reads its
configuration from a registry that exists only in memory, filled from the catalogue of voices. This project models
that path in Dafny and proves what it is meant to keep.

`dafny verify dfyconfig.toml` checks the whole of it. Nothing was executed.

## How it is laid out

| part | files |
|---|---|
| audio, SAPI side | `Trim` (feed_audio on values, and the one-shot meaning of a piece), `SpeakAudio` (a whole Speak: silences, accounting, positions), `TtsEngine` (the object and the host, chunk by chunk) |
| audio, worker side | `Capture` (re-alignment, gain, event offsets), `Pcm` (samples and bytes) |
| text | `Tags` (control tags and the scanner), `TagTable` (each tag there is, spelt out), `Runs` (spelling and reading back), `Words` (append_text, source maps, spans), `CarriedTags` (restated tags), `Plan`, `Planning`, `PlanFacts` (the plan builder against an independent meaning of fragments), `Fragments` (what a fragment comes to, on plain numbers and characters), `Drafts` (the items of a plan's runs), `WordReports` (a report from the engine back to the text), `SwallowedTag` (a tag that leaves nothing in its run) |
| worker | `Utterances` (one job after another), `Splitting` (a plan's runs as the engine speaks them), `WorkerQueue` (threads, queue, events) |
| pipe | `Frames` (framing and answers), `Client` (sending, short reads, retry) |
| configuration | `Tree` and `Registry` (keys, paths, handles), `Redirects` (import slots), `Names` and `Catalog` (voices), `Seeding` (catalogue into registry) |
| arithmetic | `Pitch` |
| shared | `Chars`, `Seqs`, `Wrappers` |

What the source does step by step is written that way here: an object whose methods update its fields is a class, and
each method's postcondition ties its new state to a function of the old one; the lemmas are about those functions.
The threads of the worker are a transition system whose steps may interleave in any order.

Environment: what the host, the engine dll, the files and the operating system may do is left open. A host may stop an
utterance at any point, take any part of what it is offered and say how much, or take it all and say nothing or too
much; the engine may cut its audio anywhere and stop in the middle of a text; selecting a voice may fail; a pipe may
die at any byte, take or give any number of bytes at a time;
any thread may set the quit flag at any moment. `isWord`, the fade, the gain, the scaling of SAPI steps, the hash of a
name and the choice of a voice for a \Vce= request are parameters. Of `isWord` only this is used: a backslash,
the marks that end a sentence and the ellipsis belong to no word.

## What turned out not to hold as documented

- Speak's closing comparison (`src/ivx_sapi_engine.cpp:1041-1059`) is called exact there; it does not count held
  quiet that write_silence throws away. `SpeakAudio.AccountingIsExactWhen` gives the exact condition.
- `base_offset` (`src/ivx_sapi_engine.cpp:676`) does not count quiet audio carried in from the piece before, so event
  positions after a voice or prosody change can be early by that much; and a position reported while the lead-in is
  still being dropped may not be final. `SpeakAudio.EventPosition` and `SpeakAudio.EarlyPosition` say when they are
  exact.
- "Nothing here relies on the previous utterance" (`src/ivx_engine.cpp:1090-1092`) is true of text, not of phonemes,
  which have no prologue.
- A \Vce= tag that asks for the voice already speaking, or for one nobody has, leaves nothing in the run, so a word it
  stands in is reported with the tag inside its span (`SwallowedTag.WordAcross`); `WordReports.WordIsItsSpan` says
  exactly when a span is the word.
- Carried tags with several effects (\rst\) make `forget` and `yield_to` inexact (`CarriedTags.RestoreStraddles`);
  `CarriedTags.ForgetMeaning` and `CarriedTags.YieldMeaning` say exactly when.
- The probe for an id gives up after 256 slots: the 257th user voice shares an id.
- `remove_key` does nothing for a path that ends in a backslash, although `child` finds the key.

## Model

| member | source | states |
|---|---|---|
| Trim.ChunkIndependence | src/ivx_sapi_engine.cpp:486-622 | feeding the chunks one after the other, odd and one-byte chunks included, leaves the engine object exactly where feeding their concatenation in one call would |
| Trim.FeedTwice | src/ivx_sapi_engine.cpp:486-522 | two calls of feed_audio are one call with both chunks: the part sample, the held quiet, the lead-in count and the fade all meet at the cut |
| Trim.PieceMeaning | src/ivx_sapi_engine.cpp:486-622 | after a piece the host has been given, on top of what it had, the held quiet and the spoken samples less the quiet run at their end; that run is held, and an odd byte waits in `partial_` |
| Trim.SettleMeaning | src/ivx_sapi_engine.cpp:582-622 | holding back and flushing comes to keeping all but the last quiet run of everything since the last loud sample |
| Trim.QuietPrefixConcat | src/ivx_sapi_engine.cpp:542-564 | where the lead-in ends does not depend on where the audio was cut |
| Trim.PieceInNumbers | src/ivx_sapi_engine.cpp:526-622 | a whole piece on plain numbers: every sample dropped as lead-in lies in -level..level and the next does not; every sample held lies there, and the last one handed over, as it was handed over, does not; nothing else is lost |
| Trim.SpokenAt | src/ivx_sapi_engine.cpp:458-476 | a sample that is heard is the input's own at its place after the lead-in, faded by its place while the fade lasts |
| SpeakAudio.SpeakMeaning | src/ivx_sapi_engine.cpp:666-757 | over every plan of pieces and silences, and every way the engine cuts every piece up, the host hears the one-shot reference of the plan |
| SpeakAudio.SilenceFills | src/ivx_sapi_engine.cpp:630-638 | a silence is as many whole samples as its time has room for at the engine's rate |
| SpeakAudio.Conservation | src/ivx_sapi_engine.cpp:1036-1059 | every byte received plus every byte of generated silence is written once, dropped as lead-in, thrown away with held quiet, or still held |
| SpeakAudio.AccountingIsExactWhen | src/ivx_sapi_engine.cpp:1041-1059 | the comparison at the end of Speak comes out even if and only if, at every silence of the plan, trailing quiet is not trimmed or what was spoken since the silence before ends loud |
| SpeakAudio.AccountingMissesDiscardedQuiet | src/ivx_sapi_engine.cpp:624-629 | an input on which that comparison fails: one loud sample, one quiet one, a pause; two of four bytes are reported as missing |
| SpeakAudio.EventPosition | src/ivx_sapi_engine.cpp:691-710 | once the lead-in is over, an event inside it is reported at the start of the piece, and any other at the index where its own sample sits in the host's stream, less the quiet carried into the piece; so exactly when none was carried in |
| SpeakAudio.PositionMissesCarriedQuiet | src/ivx_sapi_engine.cpp:676-702 | an input on which a position is early: a piece that ends quiet, then one loud sample, whose event is reported at the quiet one |
| SpeakAudio.EarlyPosition | src/ivx_sapi_engine.cpp:691-702 | a position reported while the lead-in is still being dropped is final if and only if it lies in what had been dropped by then, or the next whole sample, if there is one, is loud |
| TtsEngine.TtsEngine.Offer | src/ivx_sapi_engine.cpp:390-437 | one bounded write of whole samples: the host is asked for an end first; what the engine counts as taken is what the host took, whatever impossible count it reports after taking it all; nothing is offered when less than a sample is left |
| TtsEngine.TtsEngine.WriteBytes | src/ivx_sapi_engine.cpp:374-439 | whatever part of each offer the host takes, all of the data reaches it in order but for one byte at most, and all of it when the data and what is taken are whole samples; no offer is of more than 30 ms or 256 bytes; or the host stopped the utterance and a front part of the data arrived |
| TtsEngine.TtsEngine.FlushQuiet | src/ivx_sapi_engine.cpp:441-456 | the held audio is written, once, in the same way, and is no longer held |
| TtsEngine.TtsEngine.ApplyOnsetFade | src/ivx_sapi_engine.cpp:458-476 | the opening samples are faded by their position in the fade, all others untouched, and the fade left is what remains |
| TtsEngine.TtsEngine.SkipLeadIn | src/ivx_sapi_engine.cpp:542-564 | exactly the samples before the first loud one are left out, counted in both totals, and speech has begun if one was loud |
| TtsEngine.TtsEngine.SettleSamples | src/ivx_sapi_engine.cpp:582-622 | the chunk up to its last loud sample is written behind what was held, and the rest is held; nothing is written when none is loud |
| TtsEngine.TtsEngine.FeedWhole | src/ivx_sapi_engine.cpp:526-622 | the object's fields after a chunk are those of the value-level FeedSamples; the host has that, or stopped and has a front part of it |
| TtsEngine.TtsEngine.FeedAudio | src/ivx_sapi_engine.cpp:486-622 | the same for a chunk of any length, with the part sample kept for the next; after a stop the host has a front part of what would have been written |
| TtsEngine.TtsEngine.WriteSilence | src/ivx_sapi_engine.cpp:624-664 | what was held is thrown away and whole samples of zeros are written for the length asked for, rounded down |
| TtsEngine.TtsEngine.SpeakPiece | src/ivx_sapi_engine.cpp:666-692 | a piece of any number of chunks ends as Run says, or stopped with a front part of it heard |
| TtsEngine.TtsEngine.RunPlan | src/ivx_sapi_engine.cpp:1004-1029 | the loop over the plan: the state is that of all its pieces and silences one after the other, or the host stopped or a silence could not be written, and a front part of that was heard |
| TtsEngine.TtsEngine.Speak | src/ivx_sapi_engine.cpp:1004-1059 | a whole plan on a new engine object: if it is not stopped, the host has exactly the audio of the plan, nothing is held, and the closing comparison, as computed from the fields, comes out even iff every silence follows speech that ends loud |
| Capture.EmittedGrows | src/ivx_engine.cpp:343-386 | taking a chunk after others: the blocks passed on are the scaled whole frames of everything so far, and what is held is the rest |
| Capture.EverySampleIsScaled | src/ivx_engine.cpp:343-386 | whatever stands before and after it, every sample goes through the gain on its own, once |
| Capture.WholeFrames | src/ivx_engine.cpp:343-386 | what is taken is the longest front part of whole frames, a frame being one sample of every channel |
| Capture.CaptureAudio.DataSet | src/ivx_engine.cpp:343-386 | the blocks passed on concatenate to the scaled longest whole-frame front of everything handed over, `carry_` is the rest, shorter than a frame, `written_` is the raw total |
| Capture.CaptureAudio.Pass | src/ivx_engine.cpp:376-384 | one block, scaled, for anything but nothing; the consumer may refuse it |
| Capture.CaptureAudio.Begin | src/ivx_engine.cpp:410-431 | an utterance starts with nothing of the last one in hand |
| Capture.EndToEnd | src/ivx_engine.cpp:343-386 | worker and client together, 16-bit mono: `partial_` stays empty, so no utterance shifts the next by a byte, and the host hears the one-shot meaning of the scaled raw output |
| Capture.OffsetIsExactWhen | src/ivx_engine.cpp:571-588 | a position reported within its one-second window is rebuilt exactly if and only if its window is the one being produced (or it repeats the last position from an earlier one) |
| Capture.BufNotifySink.Emit | src/ivx_engine.cpp:571-595 | reported positions never go backwards |
| Capture.BufNotifySink.EmitAll | src/ivx_engine.cpp:571-595 | events that come in order, each while its own window is produced, are reported exactly where they are |
| Pcm.DecodeEncode | src/ivx_sapi_engine.cpp:458-476 | samples written as bytes and read again are the same samples |
| Pcm.EncodeDecode | src/ivx_sapi_engine.cpp:526-564 | and whole-sample bytes read and written again are the same bytes |
| Pcm.SampleAt | src/ivx_sapi_engine.cpp:526-549 | a sample is two bytes, the low one first, taken as signed |
| Tags.ScanTiles | src/ivx_tags.h:262-290 | tokens tile the text in order; Text tokens are not empty, never adjacent and hold no position a tag could be read at; every other token is what read_tag finds where it begins |
| Tags.ScanIsUnique | src/ivx_tags.h:262-290 | no other list of tokens has those properties |
| Tags.ScanText | src/ivx_tags.h:262-290 | the scanning loop computes that list |
| Tags.TagShape | src/ivx_tags.h:199-258 | a tag is two backslashes with 1 to 256 characters and no backslash between them; it goes on to the engine as it stands, a \Vce= tag as the part of it the engine can act on |
| TagTable.TagStandsWhere | src/ivx_tags.h:199-217 | a tag stands exactly where a backslash does that another closes, with at most 256 characters and no backslash in between that can be read |
| TagTable.EveryTag | src/ivx_tags.h:46-65 | each of the fourteen tags, by its name in any case: what it takes as its value, what kind it is, what it has an effect on, and what of it goes on to the engine |
| TagTable.NoOtherTag | src/ivx_tags.h:199-258 | nothing else is a tag |
| TagTable.RequestReadsBack | src/ivx_tags.h:115-193 | whatever a \Vce= tag asks for, in whatever order, its keys in any case, bare or quoted, with blanks anywhere around, is read as just that: the last speaker, language and accent, and every gender and age rebuilt in order |
| Tags.ReadTagAt | src/ivx_tags.h:199-258 | read_tag's bounded search for the closing backslash finds what an unbounded one followed by the length test finds |
| Tags.ReadVoiceTag | src/ivx_tags.h:115-193 | the key loop of read_voice computes the recursive reading of key=value, key=value |
| Tags.ReadVoiceValue | src/ivx_tags.h:138-163 | a value is quoted, with blanks allowed after it, or bare and trimmed; a stray quote makes it none |
| Tags.ShapeHasNoBackslash | src/ivx_tags.h:168-196 | whatever a \Vce= tag asks for, the tag rebuilt from it holds no backslash inside |
| Runs.ParseEncode | src/ivx_sapi_engine.cpp:77-114 | any reader of the spelling stays on item boundaries: a run of characters, tags and bookmarks reads back as exactly those |
| Runs.MarkReadsBack | src/ivx_sapi_engine.cpp:847-853 | the tag written for bookmark n is read as bookmark n |
| Runs.WantsAudio | src/ivx_server.cpp:155-175 | the index loop answers whether any character read back from the text is not blank |
| Runs.ChangesVoiceIn | src/ivx_tags.h:343-369 | the index loop answers whether any tag read back from the text is a voice tag |
| Runs.ReadersAgree | src/ivx_server.cpp:155-175 | on every run the two walkers answer for the items: wants_audio iff some character is not blank, changes_voice iff a \Vce= tag was put in |
| Words.AppendText | src/ivx_sapi_engine.cpp:77-108 | append_text adds the spelling of the text's items and, beside each character of it, the position it came from |
| Words.TextItemsAre | src/ivx_sapi_engine.cpp:77-108 | the characters kept are those that do not end a sentence that has ended already, by . ? ! or an ellipsis, which is given as a full stop; no others, and none is invented |
| Words.TextItemsInOrder | src/ivx_sapi_engine.cpp:77-108 | in the order of the text, each once |
| Words.TextReadsBack | src/ivx_sapi_engine.cpp:77-108 | without folding, what the engine reads is the application's text, character for character |
| Words.EmitWord | src/ivx_sapi_engine.cpp:340-372 | the span reported runs from the character at the index to the end of its word; nothing for a tag or a position past the run |
| Words.SpanIsWord | src/ivx_sapi_engine.cpp:340-372 | a span is as long as its word iff the word has no seam, and then reads, in the application's text, exactly the word |
| Words.TextHasNoSeam | src/ivx_sapi_engine.cpp:77-108 | one call of append_text puts no seam into a word, whatever it doubles or folds on the way |
| WordReports.Relay | src/ivx_server.cpp:322-331 | positions in the prologue are not passed on; the others count from the start of the text |
| WordReports.Deliver | src/ivx_sapi_engine.cpp:703-708 | an engine report becomes the span of the word at that very character of prologue plus text, or nothing for the prologue, for tags and past the end |
| WordReports.RunsArePlaced | src/ivx_sapi_engine.cpp:800-999 | every run of every plan, over fragments that lie one after the other in the application's text: positions are in order, word characters are the application's own, and neighbours in a word are neighbours there unless one append_text call ends between them |
| WordReports.WordIsItsSpan | src/ivx_sapi_engine.cpp:340-372 | for every position of every run of every such plan: the span starts at the character's own position and lies in the text; it reads exactly the word iff the word has no seam; and a seam stands exactly where one stretch given to append_text ends, another begins, and the application's text has something in between |
| WordReports.PlanAndDeliver | src/ivx_sapi_engine.cpp:703-708 | planning, then a report of the engine at any position of prologue and run: nothing for the prologue, for tags and past the end, and otherwise the span of which that holds |
| WordReports.WordEndsWithText | src/ivx_sapi_engine.cpp:349-356 | a word runs past a position iff everything up to it and what stands there belongs to a word |
| SwallowedTag.OneRunOf | src/ivx_sapi_engine.cpp:963-975 | a fragment that is one word with a \Vce= tag in it, to which nobody answers or the voice already speaking, is scanned into three tokens and planned as one run in which the two parts meet |
| SwallowedTag.WordAcross | src/ivx_sapi_engine.cpp:340-372 | so wherever such a fragment stands, a report at the start of the word covers the whole fragment, tag and all, and is not the word the engine was given |
| CarriedTags.NoteMeaning | src/ivx_tags.h:294-301 | noting a tag gives it its settings and changes no other, although entries are dropped |
| CarriedTags.RestatingIsReplaying | src/ivx_tags.h:292-341 | the carried tags give the same settings as every tag so far |
| CarriedTags.YieldMeaning | src/ivx_tags.h:308-311 | after a change of prosody no carried tag touches what changed; an unchanged setting stays as decided iff the tag deciding it touches nothing changed |
| CarriedTags.ForgetMeaning | src/ivx_tags.h:303-306 | after a change of voice other settings stay; a forgotten one is left to the prologue iff no carried tag that sets it also sets something kept |
| CarriedTags.RestoreStraddles | src/ivx_tags.h:303-311 | the input for both: \rst\ still decides the pitch after forget, and no longer the rate after yield_to for the pitch |
| CarriedTags.StaysIrredundant | src/ivx_tags.h:292-341 | the list never holds an entry all of whose effects a later one has; in particular no two with the same effects |
| CarriedTags.Carried.Note | src/ivx_tags.h:294-301 | the list afterwards is the value-level Noted |
| CarriedTags.Carried.Forget | src/ivx_tags.h:303-306 | the list afterwards is the entries with an effect that was not forgotten, in order |
| CarriedTags.Carried.YieldTo | src/ivx_tags.h:308-311 | the list afterwards is the entries with no effect that changed, in order |
| CarriedTags.Carried.Tags | src/ivx_tags.h:313-320 | the tags of the entries, in order, as the run spells them |
| Tags.EffectsAreHad | src/ivx_tags.h:46-65 | every tag passed on to the engine is recorded with just the effects its name gives it there |
| Splitting.ItemsAreHeard | src/ivx_sapi_engine.cpp:800-999 | the engine, obeying a run's tags as it meets them, speaks just what the plan means by the run and ends under the settings in force there |
| Splitting.RunIsSpokenAsMeant | src/ivx_server.cpp:363-365 | from plan to speech: a run sent to the worker is spoken as the plan means it, each character by the run's voice under the tags in force and, where none decides, the request's own rate, pitch and volume |
| Splitting.RestatedInFull | src/ivx_sapi_engine.cpp:833-845 | whatever the engine was left at, a prologue and the carried tags put it where the prologue and all the tags so far would |
| Splitting.SplitIsSpokenTheSame | src/ivx_sapi_engine.cpp:822-845 | what follows a split is spoken, character by character and setting by setting, as it would be with every earlier tag in front of it |
| Planning.Planner.PlanAll | src/ivx_sapi_engine.cpp:800-999 | for every list of fragments the plan's runs and actions say, item by item, what the fragments mean; the bookmark names are those met, in order; every tag in a run is recorded with the effects the engine gives it; and the plan's runs are made of just the items RunsOf gives |
| Planning.Planner.AddFragment | src/ivx_sapi_engine.cpp:855-997 | one fragment adds what it means, by its action: silence, phonemes, bookmark, spelling, plain text or text with tags |
| Planning.Planner.AddToken | src/ivx_sapi_engine.cpp:948-995 | one token adds what it means; the open piece, if any, still has the fragment's prosody |
| Planning.Planner.BeginPiece | src/ivx_sapi_engine.cpp:822-845 | opening a piece yields what changed and restates the rest, which changes nothing of what is said |
| Planning.Planner.Flush | src/ivx_sapi_engine.cpp:807-813 | closing a piece loses nothing that was said |
| Planning.Planner.TakeVoiceOf | src/ivx_sapi_engine.cpp:963-976 | only a voice that differs closes the piece; pitch and voice parameters are then carried no further |
| Planning.Planner.AddSpelled | src/ivx_sapi_engine.cpp:934-943 | spelled-out characters keep their own positions, each followed by a space from nowhere |
| Planning.Planner.AddBookmark | src/ivx_sapi_engine.cpp:847-853 | the tag put in carries the number of the name just added, from one |
| PlanFacts.PauseOnlyPauses | src/ivx_sapi_engine.cpp:987-993 | a pause in the text adds the pause and changes nothing said before or after it, nor the voice or settings it is said under |
| PlanFacts.SettingsAreAllTags | src/ivx_sapi_engine.cpp:948-995 | while the voice stays, the settings in force in a fragment are those of every tag so far, however it was split |
| PlanFacts.FragmentSaysItsOwn | src/ivx_sapi_engine.cpp:855-863 | a fragment only adds at the end, and every character it adds is the one of its own text it claims to be |
| Fragments.FragmentIsOwn | src/ivx_sapi_engine.cpp:855-863 | whatever is heard of a fragment, phonemes included, is heard at the call's rate plus the fragment's own, its own pitch, and its share of the call's volume, each the nearest its range allows |
| Fragments.RunsAreOwn | src/ivx_sapi_engine.cpp:855-999 | so is every run of a plan that has a character in it, for some fragment of the call |
| Fragments.FragmentSaysAll | src/ivx_sapi_engine.cpp:865-995 | a fragment is said whole: all of its text but its tags, in order; its characters with a space after each when spelt out; a silence of just its length; its phonemes as they stand |
| Fragments.TurnDrops | src/ivx_sapi_engine.cpp:833-838 | when the application changes a rate, a pitch or a volume, just the tags that set that one are carried no further |
| Fragments.VoiceTurns | src/ivx_sapi_engine.cpp:963-975 | a \Vce= tag that names someone or some language turns to whoever answers, if that is another voice; just the tags that set nothing but pitch or voice parameters are then carried no further |
| Fragments.OnePiece | src/ivx_sapi_engine.cpp:800-803 | fragments of one rate, pitch and volume, with no silence, phonemes or other voice between them, stay one piece, tags and bookmarks included |
| PlanFacts.BookmarksNumbered | src/ivx_sapi_engine.cpp:847-853 | bookmarks are 1 to n in order, each in exactly one place, n the number of names |
| PlanFacts.BookmarksAreNamed | src/ivx_sapi_engine.cpp:847-853 | the n-th name is that of the n-th bookmark of the call, set by the application or by a tag in its text; so a number maps back to its own name |
| Utterances.PrologueStates | src/ivx_engine.cpp:1184-1197 | whatever the engine was left at, the prologue is silent and states rate, pitch and volume; voice parameters stay |
| Utterances.StaysClean | src/ivx_server.cpp:261-388 | after every job, whatever its text did, however far it got and whatever failed, the voice parameters are the selected voice's own |
| Utterances.EveryJobStartsClean | src/ivx_server.cpp:261-388 | so over every sequence of jobs each starts with them |
| Utterances.NoLeak | src/ivx_server.cpp:261-388 | from any such state, what is spoken of a request is a front part of what the request alone means, and all of it unless it was cut short |
| Utterances.NoLeakBetweenUtterances | src/ivx_server.cpp:261-388 | after any two histories at all the same request, heard out, is spoken the same |
| Utterances.PlainTextIsSpoken | src/ivx_engine.cpp:1184-1197 | what a request without tags means: its text, by the voice asked for, at the rate of its rate step, the pitch of its pitch step, and both channels at the level nearest to its per cent |
| Utterances.StepsAreApart | src/ivx_server.cpp:349-358 | the three steps do not touch one another, whatever tags the text has |
| Utterances.SpokenWhen | src/ivx_server.cpp:261-300 | a job is spoken if and only if the engine is ready, its format is known, and the voice is selected already, or can be now, or on a second try after the voice files were read again |
| Utterances.NoVoiceIsLeft | src/ivx_server.cpp:261-300 | a job whose voice cannot be had says nothing, and leaves the voice selected before only when the id could not be read and the voice files had nothing new |
| Utterances.VoiceIsLeft | src/ivx_server.cpp:261-388 | a job that was spoken leaves its own voice selected, or none when the engine was lost on the way |
| Utterances.PhonemesOwnWhen | src/ivx_server.cpp:360-362 | phoneme jobs have no prologue: they are spoken under the voice's own settings iff the voice is selected afresh or nothing had changed them |
| Utterances.PhonemesAreSpoken | src/ivx_server.cpp:360-362 | they are spoken as they stand, backslashes and all, up to where the client gives up, by the voice asked for |
| Utterances.PhonemesTakeUpTheRate | src/ivx_server.cpp:360-362 | an input on which they are not: after text in the same voice they are spoken at that text's rate |
| Utterances.Worker.Run | src/ivx_server.cpp:261-388 | run_job, step by step, is the value-level RunJob: refresh, choose, format, speak or phonemes |
| Utterances.Worker.ChooseVoice | src/ivx_server.cpp:275-296 | the voice is selected if it is not yet, tried again on a table read afresh, or the job fails |
| Utterances.Worker.SpeakTagged | src/ivx_server.cpp:362-388 | a silent attempt at text that wants audio is retried once on a recycled voice, and text that changed the voice has it selected again |
| WorkerQueue.InvStep | src/ivx_server.cpp:401-511 | every step of any client thread, the engine thread or a thread that sets g_quit keeps the invariant |
| WorkerQueue.EveryJobSettledOnce | src/ivx_server.cpp:480-511 | in every interleaving every job is refused or finished at most once, and exactly once by the time its client is out of submit; until then the client has not returned, so the job on its stack is there |
| WorkerQueue.FirstInFirstOut | src/ivx_server.cpp:441-454 | jobs are finished in the order they were pushed |
| WorkerQueue.NothingAfterTheDrain | src/ivx_server.cpp:457-473 | once the engine thread is past its last drain the queue is empty, no push is possible, and that holds for ever |
| WorkerQueue.WakeStep | src/ivx_server.cpp:427-455 | no wake-up is lost: while the engine thread sleeps unsignalled, every queued job's client has its SetEvent still to do |
| WorkerQueue.DrainStep | src/ivx_server.cpp:457-473 | the last drain only begins after g_quit, and ends on an empty queue with no client between looking at g_quit and pushing |
| WorkerQueue.OwnersStep | src/ivx_server.cpp:480-511 | every job in the queue or in the engine thread's hands belongs to a client still inside submit |
| WorkerQueue.OthersDoNotDelay | src/ivx_server.cpp:480-511 | no step of another thread puts a queued job off |
| WorkerQueue.EngineStepsComeNearer | src/ivx_server.cpp:427-473 | every step of the engine thread brings each queued job strictly nearer to being finished |
| WorkerQueue.AlwaysAStep | src/ivx_server.cpp:427-511 | while a job is queued or in hand some step is possible, of the engine thread or of a client inside submit, that brings it strictly nearer to being finished, clients' steps counted too |
| WorkerQueue.NoJobIsStranded | src/ivx_server.cpp:401-511 | from every reachable state, for every job not yet done with, there is a run of such steps, with no new request and no new client in it, after which the job is settled; finished, if it was pushed |
| Frames.ReadsBack | src/ivx_client.cpp:176-193 | a frame's bytes read back as the frame and leave what follows |
| Frames.ReadsOnlySpellings | src/ivx_client.cpp:195-222 | nothing reads as a frame but its own spelling |
| Frames.OnThePipe | src/ivx_client.cpp:176-193 | on the pipe a frame is its kind and its length, four bytes each with the lowest first, and its payload |
| Frames.AnswerReadsBack | src/ivx_server.cpp:76-97 | what the worker writes for one request, ended by a done or an error frame, reads back as one answer, and the next begins right after it |
| Frames.CutAnswerDied | src/ivx_client.cpp:195-222 | cut at any byte before its end, an answer is seen as a lost connection, after a front part of its frames |
| Client.WorkerClient.Send | src/ivx_client.cpp:176-193 | the whole frame is sent, over any writes the pipe takes, or the answer is false |
| Client.WorkerClient.ReadFrame | src/ivx_client.cpp:195-222 | over any pattern of short reads the next frame is read and not a byte more |
| Client.WorkerClient.StreamUtterance | src/ivx_client.cpp:280-347 | the whole answer is read; the listener gets its audio, events and format as Listen says |
| Client.WorkerClient.SpeakRequest | src/ivx_client.cpp:349-417 | the retry loop is the value-level Speak |
| Client.HearsAPrefix | src/ivx_client.cpp:304-325 | the listener hears the answer's audio from the start, in order, up to and including the first piece it refuses, and no event after that |
| Client.HearsUpTo | src/ivx_client.cpp:290-335 | the listener is given all the audio and all the events of the answer up to its end or to the piece it refuses, and every format; frames too short to be events or formats are passed over |
| Client.HeardFromOneAttempt | src/ivx_client.cpp:349-417 | a request is made on the first connection there is and, if and only if that died with nothing heard, on the next one there is; just those are used up, and what came of the last is what comes of the request; the cancel event is left set iff that failed after a piece of audio was refused |
| Client.AskedAgain | src/ivx_client.cpp:378-415 | a first connection that dies unheard costs nothing: with a second one that carries a whole answer, that answer is heard, the request was sent on it, and the pipe is left at the next |
| Client.SuccessEndsOnAFrame | src/ivx_client.cpp:337-344 | a request succeeds iff the last connection it is made on takes it and carries a finished answer; that was then read through its last frame and no further, even after a refusal, so the next request starts on a frame boundary |
| Client.AnswersMeetRequests | src/ivx_client.cpp:280-417 | on a connection that carries a whole answer the listener gets that answer's audio, less what follows a refusal, and the pipe is left at the next |
| Tree.PartsJoin | src/ivx_vregistry.cpp:434-463 | the path p\q leads where q leads from where p does |
| Tree.SubtreeTaken | src/ivx_vregistry.cpp:520-534 | erasing a child leaves a tree, takes exactly the keys at and under it, and changes no value of any other |
| Tree.ChildAdded | src/ivx_vregistry.cpp:446-455 | making a child leaves a tree with that one key more, empty |
| Tree.GrownIs | src/ivx_vregistry.cpp:434-463 | creating a path adds its own missing prefixes, empty, and changes nothing that was there |
| Registry.VirtualRegistry.Child | src/ivx_vregistry.cpp:434-463 | the node found is the one at the path, in any case, empty names skipped; it is found iff it is there or may be made |
| Registry.VirtualRegistry.SetString | src/ivx_vregistry.cpp:483-495 | the keys afterwards are those before with one value written |
| Registry.ReadOverWrite | src/ivx_vregistry.cpp:483-495 | reading after writing: the one value written, under the one key, and every other value as it was |
| Registry.VirtualRegistry.ForgetHandles | src/ivx_vregistry.cpp:497-518 | the worklist ends, and has collected exactly the subtree; every handle into it is dropped and no other |
| Registry.VirtualRegistry.RemoveKey | src/ivx_vregistry.cpp:520-534 | the key, everything under it and the handles on those go, all else stays; nothing goes when the path ends in a backslash or is not there |
| Registry.RemovesWhen | src/ivx_vregistry.cpp:520-534 | a path names a key to remove iff it is not empty, does not end in a backslash, and the key is there |
| Registry.VirtualRegistry.Target | src/ivx_vregistry.cpp:549-567 | whatever a handle stands for is a key that is in the tree |
| Registry.TargetIs | src/ivx_vregistry.cpp:549-567 | the two hives the engine asks for are the one tree, any other predefined key is an empty one, and everything else is a handle or nothing |
| Registry.VirtualRegistry.Resolve | src/ivx_vregistry.cpp:549-567 | a handle that stands for a key resolves to its node, and no other resolves |
| Registry.VirtualRegistry.MakeHandle | src/ivx_vregistry.cpp:569-574 | a new handle is on the node and touches none that is open |
| Registry.VirtualRegistry.CloseHandle | src/ivx_vregistry.cpp:576-579 | that handle is closed and no other |
| Registry.HandlesRunOut | src/ivx_vregistry.cpp:17-20 | the n-th handle is mistaken for a predefined key iff n has reached 229,277,696 and, counted from there, stands in the first half of a round of 2^30 |
| Registry.VirtualRegistry.OpenKey | src/ivx_vregistry.cpp:113-139 | opens exactly the keys that are there, if the caller has somewhere to put the handle; told apart from a key or a root that is not there |
| Registry.VirtualRegistry.CreateKey | src/ivx_vregistry.cpp:141-164 | makes what is missing, says whether it was, and opens it; nothing at all for an unknown handle or when the caller has nowhere to put the new one |
| Registry.VirtualRegistry.SetValueEx | src/ivx_vregistry.cpp:210-231 | one value of the handle's key, or an invalid handle and nothing |
| Registry.VirtualRegistry.QueryValue | src/ivx_vregistry.cpp:166-208 | the value is in the caller's buffer, the rest of which is untouched, exactly when it is there and fits; its type and size are told also for a query of the size and for a buffer too small, which leaves the buffer alone |
| Registry.VirtualRegistry.Uninstall | src/ivx_vregistry.cpp:619-629 | drops every handle and keeps every key |
| Redirects.ImportTable.Install | src/ivx_vregistry.cpp:581-617 | every import that is there and can be written is redirected, in order, and no other slot changes; all of them, or false; what the table was stays on record |
| Redirects.ImportTable.Uninstall | src/ivx_vregistry.cpp:619-629 | every slot that can be written is what it was before the first redirection, slots redirected twice included |
| Seeding.Seed | src/ivx_catalog.cpp:634-702 | after any earlier table there is exactly one key under Modes for each voice, where each of the voice's thirteen values is read under its own name, LibraryFile, PhSymFile and SpeakerStyle only if not empty; every directory name leads to the engine's folder and its log is as asked for; elsewhere the keys and values are exactly those that writing the directories left; only handles on the old table are gone |
| Seeding.CopyIsRead | src/ivx_catalog.cpp:471-476 | a new voice has its template's values, but for the speaker name |
| Seeding.SectionIsRead | src/ivx_catalog.cpp:486-503 | from the user's section to the engine: what a section gives under a name is what the engine reads under that name, and what it does not give is read as before |
| Seeding.ModeHolds | src/ivx_catalog.cpp:675-700 | under a voice's key each field is found under its name in any case iff it is to be written, and nothing under a name that is not |
| Seeding.TableReads | src/ivx_catalog.cpp:675-700 | in any table of voices, each voice's values are read under their names, where the engine looks for them |
| Seeding.OverReads | src/ivx_catalog.cpp:675-700 | where no name comes twice, every value written is read back and nothing else is there |
| Seeding.InOrderSeeds | src/ivx_catalog.cpp:675-680 | a catalogue as load_user_voices leaves it can be seeded: its mode keys name keys, and different ones |
| Catalog.Voices.LoadUserVoices | src/ivx_catalog.cpp:431-578 | over every sequence of sections: display names and mode keys stay apart in any case; ids are apart iff there are at most 256 user voices; every voice keeps its place, names and id; each section in its turn comes to just what it asks for: nothing without a name or as [Settings], changes to the first voice that answers to it, or a voice more |
| Catalog.Voices.AddVoice | src/ivx_catalog.cpp:458-548 | a new voice is its template with the section's values and LCID, the language of its rule file, the first free numbered mode name, the first free id slot from its hash on, and a speaker name the engine takes |
| Catalog.Voices.ChangeVoice | src/ivx_catalog.cpp:481-510 | a section for a voice there is changes its settings and LCID, and nothing that tells voices apart |
| Catalog.LcidFromLanguage | src/ivx_catalog.cpp:508-511 | a section that gives no LCID has its language number, with the default sublanguage when that is 1023 or less |
| Catalog.NameIsFound | src/ivx_catalog.cpp:580-592 | a name finds the first voice shown under it, or built in and once shown under it, in any case; and none only when there is none |
| Catalog.TemplateIs | src/ivx_catalog.cpp:466-476 | a new voice starts from the voice its section names, or from the first when it names none that is there |
| Catalog.LcidReadsBack | src/ivx_catalog.cpp:505-507 | a section's LCID is the number it gives in base 16, kept to 16 bits: after blanks, with a sign, 0x or noughts in front, in either case, whatever follows it |
| Catalog.TokenLcidReadsBack | src/ivx_catalog.cpp:234-239 | the language a voice's token names, given as a section's LCID, is that voice's LCID |
| Catalog.Voices.FixSpeakerName | src/ivx_catalog.cpp:556-570 | a speaker name the engine takes stays, any other becomes the language and the suffix of the voice's own name; afterwards it names the language |
| Catalog.Voices.FreeModeKey | src/ivx_catalog.cpp:524-530 | the renaming loop ends, on the first of the numbered names that no other voice has |
| Catalog.Voices.FreeModeGuid | src/ivx_catalog.cpp:539-545 | the probe ends on the first slot, from the start on, that no other voice has, or on the last when all are taken |
| Catalog.SomeIdFree | src/ivx_catalog.cpp:539-545 | with fewer than 256 user voices some id is free |
| Catalog.TooManyShareIds | src/ivx_catalog.cpp:165-170 | with more than 256, two voices share an id |
| Catalog.SlotsApart | src/ivx_catalog.cpp:165-170 | different slots give different ids, in any case |
| Catalog.Voices.FindByLanguageFile | src/ivx_catalog.cpp:607-619 | the first built-in voice of the rule file other than the one asked about |
| Catalog.LanguageIsFound | src/ivx_catalog.cpp:607-619 | a rule file's language is that of the first built-in voice of the file other than the voice itself, and not known only when there is none |
| Catalog.SpeakerNameIs | src/ivx_catalog.cpp:144-156 | a speaker name stays when it is the language, or the language, a space and more, in any case; any other is made of the language and the voice's own name |
| Catalog.SlotReadsBack | src/ivx_catalog.cpp:165-171 | a made-up id is the stock pattern with the language slot ff and its own slot as two digits in base 16 |
| Catalog.SuffixOfDisplay | src/ivx_catalog.cpp:96-121 | a display name gives the same suffix with any of the four product names in front of it, with the name of a language, or with both, each in any case |
| Names.Suffix | src/ivx_catalog.cpp:101-136 | the words of the text, its longest runs of letters and digits, one space apart; "Custom" when there is none |
| Names.WordsAreRuns | src/ivx_catalog.cpp:101-136 | the words have all the letters and digits of the text in them, in order, and there is one for every run of them |
| Names.SuffixOfNothing | src/ivx_catalog.cpp:135 | a name without a letter or a digit gets the suffix "Custom" |
| Names.SuffixIsPlain | src/ivx_catalog.cpp:101-136 | so a mode name's suffix is never empty and holds nothing but letters, digits and single inner spaces |
| Names.PlainIsItsWords | src/ivx_catalog.cpp:122-136 | such a text is determined by its words |
| Names.NumberedApart | src/ivx_catalog.cpp:526-530 | two numbered names never come to the same, in any case |
| Pitch.BehindIsHighest | src/ivx_pitch.h:21-39 | reported_hertz(p) <= h iff p <= param_behind(h): for every p from 26 to 100 when h >= 30, and for h below 30 exactly when p > 26 |
| Pitch.BehindReported | src/ivx_pitch.h:36-39 | every parameter comes back from the hertz it is reported as |
| Pitch.EndsOfScale | src/ivx_pitch.h:21-45 | the scale ends at 26 and 100, reported as 30 and 250 Hz and as 58 and 221 in a \Pit= tag |
| Pitch.TagIsMiddle | src/ivx_pitch.h:41-50 | the tag value is the whole number nearest to the middle of those the engine takes for that parameter |
| Pitch.SpokenIs | src/ivx_pitch.h:31-34 | selecting by reported hertz loses one step, but for 26, 63 and 100 |
| Pitch.TagReadsBack | src/ivx_pitch.h:41-50 | param_from_tag(tag_value(p)) is the clamped parameter for every integer p |
| Pitch.Monotone | src/ivx_pitch.h:21-50 | all six maps are monotone over all integers |

## Left out

- WordReports.WordIsItsSpan: fragments whose offsets go backwards, or whose text is not the application's at the offset given, are not covered.
- TtsEngine.TtsEngine.Offer: a host that takes only part of what it is offered and gives no count, or a wrong one, is not covered; the code then goes by what it is told, or takes all to be taken.
- TtsEngine.TtsEngine.FeedAudio: from here up, only for a host that never takes part of a sample (`wholeSamples`); TtsEngine.TtsEngine.WriteBytes says what the loop does with one that does.
- TtsEngine.TtsEngine.Speak: the fade lengths and the engine's answers are given with the plan; rate and volume changed by the host during a call, which nothing reads again, are not part of this model.
- Client.WorkerClient.Write: takes as much as the pipe takes at once; a header is one write, as in the source.
- SpeakAudio.SpeakMeaning: formats other than 16-bit mono are not modelled on the SAPI side; trimming looks at single samples.
- Capture.CaptureAudio.DataSet: the gain is fixed within an utterance and its arithmetic abstract.
- Utterances.Worker.Run: statuses, timeouts and wall-clock waits are represented only by how far a text is heard.
- Catalog.Voices.LoadUserVoices: the settings sections are not part of this model; section and key names are compared without regard to case for ASCII letters only.
- Registry.VirtualRegistry.MakeHandle: handle values are unbounded, so that a 32-bit counter gives a number out again once it has gone round is not modelled; HandlesRunOut says when a handle is taken for a predefined key.
- Character classes (`iswspace`, `towlower`, `_stricmp`) beyond ASCII, and 32-bit wrap of byte counters and offsets.
- `vreg_delete_key`, which erases a subtree without forgetting its handles, `vreg_delete_value`, `vreg_set_value`, enumeration and key information; the hive fallback.
- The choice of voices an installation keeps (`apply_installed_selection`), settings files and their merging, file stamps.
- The order in which a catalogue moved to another rule file names languages: names_language is stated for a section's own voice when the section has been read.
- Sentence events, COM and SAPI tokens, pipes and mutexes as operating system objects, starting and stopping the worker, the dialogs, logging and installers.
- The engine dll: only the effects its tags have and the streams it may produce.
- WorkerQueue.AlwaysAStep: fairness of the lock and of the scheduler is not part of this model, nor are window messages, which wake the engine thread to no effect here, nor wmain's ten-second wait before it deletes the lock.
- Requests other than speaking (hello, voices, ping, shutdown) and phoneme requests on the client side, which are not retried.
