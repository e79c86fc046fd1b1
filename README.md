# YouTube summary, flashcard and quiz generator — a Dafny model

This project models the core of a web application. A learner pastes a YouTube link. An edge function
(`process-youtube-video`) then does the following:

- pulls the video id out of the link;
- obtains a transcript, or writes a filler text when none can be had;
- stores the video;
- generates flashcards and a multiple-choice quiz. They come from a language model's JSON reply when it
  parses and survives the filters, and from built-in, difficulty-aware templates otherwise.

On the client, a React hook sends the request and keeps the processing state and toasts. The index page
checks the link before sending it. The results view flips flashcards, records quiz answers, enables
submission and computes the score.

The model is split into Dafny modules that follow the program's structure:

| module | models |
|---|---|
| `Wrappers`, `Text` | `Option`/`Result`; the JavaScript string and array operations the code relies on (`toLowerCase`, `includes`, `trim`, `split`, `slice(0, k)`, `Array.from({length})`, global literal `replace`) |
| `VideoId` | the server's `extractVideoId`: two regular expressions tried in order |
| `UrlValidation` | the page's `validateYouTubeUrl`, characterised exactly and compared with `extractVideoId` |
| `Transcript` | the strategy chain of `extractTranscriptRobust`, the filler texts and the 50-character floor |
| `Captions` | `fetchCaptionContent` after the download: element matching, tag stripping, entity decoding, white-space clean-up |
| `JsonRepair` | the clean-up chains applied to the model's reply before `JSON.parse`, each global `replace` as a scan over the text |
| `Records` | the card and question filters and the rows `saveFlashcards` / `saveQuiz` build |
| `Store` | the database as a class with four append-only tables; inserts may be refused |
| `Concepts` | `extractKeyConceptsFromTranscript` and `generateContentAwareFlashcards` |
| `QuizTemplates` | `generateContentAwareQuiz`: term search, templates per difficulty, selection and padding |
| `Pipeline` | the request handler, `generateAdvancedFlashcards`, `generateAdvancedQuiz` and the `Promise.all` |
| `ProcessingHook` | `useVideoProcessing.processVideo`: request body defaults, toasts, `isProcessing` |
| `IndexPage` | the page state and `handleSubmit` |
| `QuizView` | the `VideoResults` component: card flipping, answer recording, submission, score, question ordering, "generate more" |

Several things are inputs of the model:

- the network calls: the transcript strategies, the caption download, the model's replies, the metadata
  scrape and the summary;
- whether the API key is set;
- `JSON.parse`, given as a partial function from text to records;
- which database tables refuse inserts.

## Model

Source paths are relative to the repository root.

| member | source | states |
|---|---|---|
| VideoId.IdAt | supabase/functions/process-youtube-video/index.ts:110 | the captured group is exactly eleven characters from `[a-zA-Z0-9_-]` |
| VideoId.FirstAltAt | supabase/functions/process-youtube-video/index.ts:110 | an alternation matches at a position iff one of its prefixes followed by eleven id characters starts there; a result is a listed alternative |
| VideoId.MatchFrom | supabase/functions/process-youtube-video/index.ts:115 | a pattern matches somewhere from a position on iff some alternative matches at some later position; the capture is a well-formed id |
| VideoId.ExtractVideoId | supabase/functions/process-youtube-video/index.ts:108-119 | the loop with its early return computes the first pattern's match, else the second's, else null |
| VideoId.VideoIdUnfold | supabase/functions/process-youtube-video/index.ts:114-117 | the id is the first pattern's match when it has one, and the second pattern's otherwise |
| VideoId.PatternPrefixes | supabase/functions/process-youtube-video/index.ts:109-112 | the prefixes of the two patterns are exactly the four accepted link shapes |
| VideoId.MatchFromWitness | supabase/functions/process-youtube-video/index.ts:115-116 | a match's capture is the eleven characters after some alternative at some position |
| VideoId.VideoIdCharacterised | supabase/functions/process-youtube-video/index.ts:108-119 | an id is extracted iff some link shape followed by eleven id characters occurs anywhere in the URL, and the id is those characters |
| VideoId.FirstPatternHasPriority | supabase/functions/process-youtube-video/index.ts:114-117 | once the first pattern matches anywhere, the legacy `/v/` pattern is never consulted |
| VideoId.LegacyPatternDecides | supabase/functions/process-youtube-video/index.ts:111 | without a first-pattern match, the leftmost `youtube.com/v/` occurrence gives the id |
| VideoId.LeftmostMatch | supabase/functions/process-youtube-video/index.ts:115 | `match` returns the capture at the leftmost position where an alternative matches |
| VideoId.NoMatchWithoutY | supabase/functions/process-youtube-video/index.ts:110-111 | no alternative matches at a position that does not hold `y` |
| VideoId.ShortLinkId | supabase/functions/process-youtube-video/index.ts:110 | `https://youtu.be/<id>` yields `<id>` for every well-formed eleven-character id |
| VideoId.ShortIdRejected | supabase/functions/process-youtube-video/index.ts:110 | a three-character id is not extracted |
| UrlValidation.SchemeEnd | src/pages/Index.tsx:24-27 | `^https?://` matches iff the URL starts with one of the two schemes, and reports its length |
| UrlValidation.LeadAfterScheme | src/pages/Index.tsx:24-27 | testing the rest after the scheme equals testing the whole URL against scheme plus rest |
| UrlValidation.TestPatternIff | src/pages/Index.tsx:24-27 | one pattern accepts iff the URL starts with scheme, optional `www.`, the shape, and one id character |
| UrlValidation.SomePatternIff | src/pages/Index.tsx:29 | `some` accepts iff one of the listed patterns accepts |
| UrlValidation.ValidateIff | src/pages/Index.tsx:22-30 | the validator accepts exactly the URLs that start with scheme, host, shape and at least one id character |
| UrlValidation.LeadHasNoY | src/pages/Index.tsx:24-27 | no scheme-and-host lead contains `y` before the shape |
| UrlValidation.SameShapeAt | supabase/functions/process-youtube-video/index.ts:110-111 | two link shapes never both occur at the same position |
| UrlValidation.LeftmostFirstPattern | supabase/functions/process-youtube-video/index.ts:110 | the leftmost first-pattern shape followed by eleven id characters gives the extracted id |
| UrlValidation.ShapeAfterLead | src/pages/Index.tsx:24-27 | an accepted URL has its shape right after scheme and host |
| UrlValidation.NoShapeInLead | supabase/functions/process-youtube-video/index.ts:110 | no first-pattern alternative matches inside the scheme and host |
| UrlValidation.FirstPatternShape | supabase/functions/process-youtube-video/index.ts:109-112 | every accepted shape except `youtube.com/v/` belongs to the first server pattern |
| UrlValidation.FirstShapeIdExtracted | supabase/functions/process-youtube-video/index.ts:108-119 | for a URL led by scheme, host and a first-pattern shape, the server extracts the eleven characters after the shape |
| UrlValidation.LongIdAccepted | src/pages/Index.tsx:22-30 | a well-formed link with an eleven-character id passes the validator, and its shape matches at the end of the lead |
| UrlValidation.LeadThenIdAccepted | src/pages/Index.tsx:22-30 | any lead in the accepted form followed by an id character passes |
| UrlValidation.LongIdFound | supabase/functions/process-youtube-video/index.ts:108-119 | a shape followed by eleven id characters anywhere makes the server find an id |
| UrlValidation.AcceptedLongIdExtracted | src/pages/Index.tsx:22-30 | a link the page accepts with an eleven-character id is one the server extracts; except for `/v/`, the extracted id is exactly that id |
| UrlValidation.ShortIdPassesValidation | src/pages/Index.tsx:25 | `https://youtu.be/abc` passes the page check, yet the server finds no id |
| UrlValidation.NoSchemeRejected | src/pages/Index.tsx:24-27 | a URL without `http://` or `https://` is refused |
| UrlValidation.BareShortLinkId | supabase/functions/process-youtube-video/index.ts:110 | the server extracts the id from a scheme-less `youtu.be/<id>` |
| UrlValidation.SchemelessRejectedButExtracted | src/pages/Index.tsx:22-30 | a scheme-less short link is refused by the page even though the server would accept it |
| Transcript.FirstAccepted | supabase/functions/process-youtube-video/index.ts:173-189 | the result is the text of an attempt that returned over 100 characters, and it is none iff no attempt did |
| Transcript.FirstAcceptedAt | supabase/functions/process-youtube-video/index.ts:173-181 | if attempt `k` is the first accepted one, its text is the chain's result |
| Transcript.ExtractTranscriptRobust | supabase/functions/process-youtube-video/index.ts:163-190 | the loop returns the first accepted attempt's text; it stops right after that attempt and tries every strategy when none is accepted |
| Transcript.Opening | supabase/functions/process-youtube-video/index.ts:195 | the opening sentence holds the title and already has at least 50 characters |
| Transcript.DescriptionSentence | supabase/functions/process-youtube-video/index.ts:196 | the description sentence is empty iff the description is, and otherwise holds it |
| Transcript.TopicOf | supabase/functions/process-youtube-video/index.ts:199-209 | the topic paragraph is chosen by the first of `dom`, `javascript`, `css` found in the lower-cased title |
| Transcript.Filler | supabase/functions/process-youtube-video/index.ts:211 | the filler is opening, description sentence, paragraph and closing, in that order |
| Transcript.FallbackContent | supabase/functions/process-youtube-video/index.ts:192-212 | the fallback text has at least 50 characters and carries the topic paragraph the title selects |
| Transcript.WithObjectives | supabase/functions/process-youtube-video/index.ts:220-234 | the enhanced text is the fallback followed by the objectives block |
| Transcript.EnhancedFallbackContent | supabase/functions/process-youtube-video/index.ts:214-237 | the enhanced fallback starts with the plain fallback and ends with the objectives block |
| Transcript.EnhancedFallbackUnreachable | supabase/functions/process-youtube-video/index.ts:44-47 | the floor never fires: the transcript is the chain's result or the plain fallback, and it has at least 50 characters |
| Captions.ElementFromPieces | supabase/functions/process-youtube-video/index.ts:364 | an opening `<text`, attributes without `>`, a non-empty body without `<` and `</text>` form a caption element |
| Captions.CaptionMatchAt | supabase/functions/process-youtube-video/index.ts:364 | a match at a position is a caption element ending inside the text |
| Captions.CaptionMatches | supabase/functions/process-youtube-video/index.ts:364 | every match of the global pattern is a caption element |
| Captions.StripTags | supabase/functions/process-youtube-video/index.ts:369 | removing tags never lengthens the text |
| Captions.StripPlain | supabase/functions/process-youtube-video/index.ts:369 | text without `<` passes through tag removal unchanged |
| Captions.StripCaption | supabase/functions/process-youtube-video/index.ts:369 | stripping a caption element leaves exactly its body |
| Captions.StripMatched | supabase/functions/process-youtube-video/index.ts:369 | every matched element strips to a non-empty text without `<` |
| Captions.EntityAt | supabase/functions/process-youtube-video/index.ts:371-375 | recognises exactly the five entities the code decodes, and only at `&` |
| Captions.EncodeChar | supabase/functions/process-youtube-video/index.ts:371-375 | the escaping partner: a special character becomes an entity, any other stays |
| Captions.DecodeEntityThen | supabase/functions/process-youtube-video/index.ts:371-375 | single-pass decoding turns a leading entity into its character and goes on after it |
| Captions.DecodeEncodedChar | supabase/functions/process-youtube-video/index.ts:371-375 | decoding an escaped character gives the character back |
| Captions.DecodeEncode | supabase/functions/process-youtube-video/index.ts:371-375 | single-pass decoding inverts escaping for every text |
| Captions.DecodePlain | supabase/functions/process-youtube-video/index.ts:371-375 | text without `&` is left alone by decoding |
| Captions.EncodePlain | supabase/functions/process-youtube-video/index.ts:371-375 | text without special characters is left alone by escaping |
| Captions.DoubleDecoding | supabase/functions/process-youtube-video/index.ts:371-375 | the escaped form of `&lt;` is `&amp;lt;`; the chain as written turns it into `<`, single-pass decoding into `&lt;` |
| Captions.EscapedEntity | supabase/functions/process-youtube-video/index.ts:371-375 | escaping the literal text `&lt;` gives `&amp;lt;` |
| Captions.ChainDecodesTwice | supabase/functions/process-youtube-video/index.ts:371-375 | the chain as written decodes `&amp;lt;` twice, to `<` |
| Captions.PassDecodesOnce | supabase/functions/process-youtube-video/index.ts:371-375 | single-pass decoding turns `&amp;lt;` into `&lt;` |
| Captions.CollapseSpaces | supabase/functions/process-youtube-video/index.ts:378 | white-space runs become single spaces: the result is single-spaced, empty iff the input is, and starts and ends with white space iff the input does |
| Captions.CollapseKeepsFields | supabase/functions/process-youtube-video/index.ts:378 | collapsing keeps the words (the maximal runs without white space) exactly, in order: no two words merge and none splits |
| Captions.NonSpaceAppend | supabase/functions/process-youtube-video/index.ts:378 | the non-space characters of a concatenation are those of its parts |
| Captions.NonSpaceOfSpaces | supabase/functions/process-youtube-video/index.ts:378 | all-space text has no non-space characters |
| Captions.CollapseKeepsText | supabase/functions/process-youtube-video/index.ts:378 | collapsing keeps every non-space character, in order |
| Captions.DropLeadingSpaces | supabase/functions/process-youtube-video/index.ts:379 | dropping leading white space keeps the non-space characters |
| Captions.DropTrailingSpaces | supabase/functions/process-youtube-video/index.ts:379 | dropping trailing white space keeps the non-space characters |
| Captions.TrimKeepsText | supabase/functions/process-youtube-video/index.ts:379 | `trim` keeps every non-space character, in order |
| Captions.SliceSingleSpaced | supabase/functions/process-youtube-video/index.ts:379 | a slice of single-spaced text is single-spaced |
| Captions.TrimCollapsed | supabase/functions/process-youtube-video/index.ts:379 | trimming single-spaced text keeps it single-spaced |
| Captions.Normalise | supabase/functions/process-youtube-video/index.ts:377-379 | collapse-and-trim gives exactly the input's words joined by single spaces; so it is single-spaced, has no white space at either end, and keeps every non-space character |
| Captions.TrimKeepsFields | supabase/functions/process-youtube-video/index.ts:379 | `trim` keeps the words of the text exactly, in order |
| Captions.CaptionText | supabase/functions/process-youtube-video/index.ts:364-386 | the chain as written: captions succeed iff something matched and the cleaned, entity-decoded text exceeds 50 characters; the result is then the words of the joined bodies joined by single spaces (so trimmed, and keeping every non-space character); otherwise the "No text content found in captions" error |
| Captions.JoinedBodies | supabase/functions/process-youtube-video/index.ts:366-377 | no match joins to the empty text; one match gives its decoded, stripped body |
| Captions.CleanedCaption | supabase/functions/process-youtube-video/index.ts:378-386 | the clean-up succeeds iff the normalised text exceeds 50 characters, and then returns the input's words joined by single spaces; otherwise the captions error |
| Captions.IntendedCaptionText | supabase/functions/process-youtube-video/index.ts:364-386 | the same outcome with single-pass decoding in place of the chain as written: on success, the words of the decoded bodies joined by single spaces |
| Captions.DecodeAsWrittenPlain | supabase/functions/process-youtube-video/index.ts:371-375 | text without `&` passes through the chain as written unchanged |
| Captions.JoinedBodiesAgree | supabase/functions/process-youtube-video/index.ts:366-377 | two decoders that agree on every stripped body give the same joined text |
| Captions.CaptionTextsAgreeWithoutAmpersand | supabase/functions/process-youtube-video/index.ts:364-386 | when no stripped caption body holds `&`, the captions as written equal the intended ones |
| JsonRepair.ScanIdentity | supabase/functions/process-youtube-video/index.ts:579-581 | a global replace whose every match is replaced by itself leaves the text unchanged |
| JsonRepair.ClosedSuffix | supabase/functions/process-youtube-video/index.ts:570 | a cut that keeps the last two characters keeps a closing `}]` |
| JsonRepair.ScanAfterBrace | supabase/functions/process-youtube-video/index.ts:574-581 | a match that covers everything but a final `]` and ends in `}` leaves the text ending in `}]` |
| JsonRepair.MatchToBraceKeepsClosing | supabase/functions/process-youtube-video/index.ts:574-581 | a closing-safe step whose match stops before the final `]` keeps the `}]` ending |
| JsonRepair.MatchToEndKeepsClosing | supabase/functions/process-youtube-video/index.ts:574-581 | a closing-safe step whose match runs to the end keeps the `}]` ending |
| JsonRepair.ScanKeepsCloser | supabase/functions/process-youtube-video/index.ts:574-581 | a closing-safe step leaves the text `}]` as it is |
| JsonRepair.ScanKeepsClosing | supabase/functions/process-youtube-video/index.ts:574-581 | every closing-safe global replace keeps a `}]` ending |
| JsonRepair.ScanKeepsOpening | supabase/functions/process-youtube-video/index.ts:574-581 | a step that never matches at `[` keeps a leading `[` |
| JsonRepair.ExtractArray | supabase/functions/process-youtube-video/index.ts:560-563 | `/\[[\s\S]*\]/` takes the text from the first `[` to the last `]` when the first comes before the last, and leaves the text otherwise |
| JsonRepair.FenceJsonAt | supabase/functions/process-youtube-video/index.ts:567 | a match is three backticks, `json` and the white space after it, removed |
| JsonRepair.FenceAt | supabase/functions/process-youtube-video/index.ts:568 | a match is exactly three backticks and the white space after them, removed |
| JsonRepair.StripBeforeArray | supabase/functions/process-youtube-video/index.ts:569 | the result is the suffix from the first `[`, or empty when there is none |
| JsonRepair.CloseAsWritten | supabase/functions/process-youtube-video/index.ts:570 | `replace(/[^}]*$/, '}]')` as written ends in `}]`, and in `}}]` whenever the text holds a `}` |
| JsonRepair.CloseAsWrittenDoublesBrace | supabase/functions/process-youtube-video/index.ts:570 | as written, a reply already ending in `}]` gets a second `}` before the `]` |
| JsonRepair.CloseAsWrittenExample | supabase/functions/process-youtube-video/index.ts:570 | as written, `[{}]` becomes `[{}}]` |
| JsonRepair.CloseArray | supabase/functions/process-youtube-video/index.ts:570 | the intended closing: the text ends in `}]`, text already ending so is kept, and a leading `[` stays |
| JsonRepair.TrailingCommaAt | supabase/functions/process-youtube-video/index.ts:575 | a match is a comma, white space and a closing bracket; the comma is dropped |
| JsonRepair.BareKeyAt | supabase/functions/process-youtube-video/index.ts:576 | a match runs from `{` or `,` to a `:` after a bare word, which gets quoted |
| JsonRepair.SingleQuotedAt | supabase/functions/process-youtube-video/index.ts:577 | a match is `:` and a single-quoted value, which gets double quotes |
| JsonRepair.EscapedNewlineAt | supabase/functions/process-youtube-video/index.ts:578 | matches exactly a backslash followed by `n`, replaced by a space |
| JsonRepair.EscapedQuoteAt | supabase/functions/process-youtube-video/index.ts:579 | matches exactly a backslash and a quote, replaced by the same two characters |
| JsonRepair.StraightQuoteAt | supabase/functions/process-youtube-video/index.ts:580-581 | the smart-quote lines as written match a straight quote and put it back |
| JsonRepair.CurlyQuoteAt | supabase/functions/process-youtube-video/index.ts:580-581 | the intended step matches exactly a curly double quote and writes a straight one |
| JsonRepair.MatchersValid | supabase/functions/process-youtube-video/index.ts:566-581 | every step consumes at least one character and no more than it sees |
| JsonRepair.AsWrittenQuoteStepsIdentity | supabase/functions/process-youtube-video/index.ts:579-581 | the escaping and smart-quote lines as written change no text |
| JsonRepair.CurlyQuotesReplaced | supabase/functions/process-youtube-video/index.ts:580-581 | the intended step replaces every curly double quote with a straight one and keeps every other character in place |
| JsonRepair.CurlyQuoteSurvives | supabase/functions/process-youtube-video/index.ts:580-581 | a curly quote survives the lines as written but not the intended step |
| JsonRepair.KeepsClosingWhenClear | supabase/functions/process-youtube-video/index.ts:574-581 | a step that neither starts nor ends a match at a bracket is closing-safe |
| JsonRepair.TrailingCommaKeepsClosing | supabase/functions/process-youtube-video/index.ts:575 | the trailing-comma step is closing-safe |
| JsonRepair.BareKeyKeepsClosing | supabase/functions/process-youtube-video/index.ts:576 | the bare-key step is closing-safe |
| JsonRepair.SingleQuotedKeepsClosing | supabase/functions/process-youtube-video/index.ts:577 | the single-quote step is closing-safe |
| JsonRepair.EscapedNewlineKeepsClosing | supabase/functions/process-youtube-video/index.ts:578 | the newline step is closing-safe |
| JsonRepair.EscapedQuoteKeepsClosing | supabase/functions/process-youtube-video/index.ts:579 | the escaping step is closing-safe |
| JsonRepair.StraightQuoteKeepsClosing | supabase/functions/process-youtube-video/index.ts:580-581 | the as-written quote step is closing-safe |
| JsonRepair.CurlyQuoteKeepsClosing | supabase/functions/process-youtube-video/index.ts:580-581 | the intended quote step is closing-safe |
| JsonRepair.LiteralStepsKeepClosing | supabase/functions/process-youtube-video/index.ts:578-581 | the four literal steps are valid and closing-safe |
| JsonRepair.MatchersKeepOpening | supabase/functions/process-youtube-video/index.ts:566-581 | no step matches at a `[` |
| JsonRepair.ScanKeepsFramed | supabase/functions/process-youtube-video/index.ts:574-581 | a closing-safe step that never matches at `[` keeps text framed: it starts with `[` (or is `}]`) and ends with `}]` |
| JsonRepair.FrameArray | supabase/functions/process-youtube-video/index.ts:560-570 | the framing as written: extraction, fence removal, prefix cut and the closing as written give framed text that ends in `}}]` whenever the extracted text holds a `}` |
| JsonRepair.ArrayText | supabase/functions/process-youtube-video/index.ts:560-569 | after extraction, fence removal and the prefix cut the text is empty or starts with `[` |
| JsonRepair.IntendedFrameArray | supabase/functions/process-youtube-video/index.ts:560-570 | the intended framing gives framed text and keeps text that already ends in `}]` |
| JsonRepair.FramingsDiffer | supabase/functions/process-youtube-video/index.ts:570 | for text already ending in `}]`, the framing as written adds a `}` and so differs from the intended one, which keeps it |
| JsonRepair.FixValues | supabase/functions/process-youtube-video/index.ts:574-578 | the value-level fixes keep the text framed |
| JsonRepair.FramedTrimmed | supabase/functions/process-youtube-video/index.ts:571 | `trim` leaves framed text unchanged |
| JsonRepair.CleanFlashcardJson | supabase/functions/process-youtube-video/index.ts:557-581 | the flashcard chain as written hands `JSON.parse` framed text: it starts with `[` (or is `}]`) and ends with `}]` |
| JsonRepair.CleanQuizJson | supabase/functions/process-youtube-video/index.ts:875-895 | the quiz chain as written, which lacks the escaping step, gives framed text too |
| JsonRepair.IntendedCleanFlashcardJson | supabase/functions/process-youtube-video/index.ts:557-581 | the flashcard chain with the intended closing and smart-quote steps gives framed text |
| JsonRepair.IntendedCleanQuizJson | supabase/functions/process-youtube-video/index.ts:875-895 | the quiz chain with the intended steps gives framed text |
| JsonRepair.FixValuesNoOp | supabase/functions/process-youtube-video/index.ts:574-578 | framed text without `,`, `:` or `\` passes through the value repairs unchanged |
| JsonRepair.PlainArrayText | supabase/functions/process-youtube-video/index.ts:560-569 | a plain array (framed, no fences, commas, colons, backslashes or curly quotes) survives extraction and cuts unchanged |
| JsonRepair.OneElementArrayIsPlain | supabase/functions/process-youtube-video/index.ts:560-581 | `[{}]` is a plain array |
| JsonRepair.DoubledStaysPlain | supabase/functions/process-youtube-video/index.ts:570 | a plain array with a doubled closing brace is still plain |
| JsonRepair.AsWrittenChainsDoubleClose | supabase/functions/process-youtube-video/index.ts:557-581 | both chains as written (the quiz chain is lines 875-895) turn a plain array `…}]` into `…}}]` |
| JsonRepair.IntendedFlashcardsKeepPlainArray | supabase/functions/process-youtube-video/index.ts:557-581 | the intended flashcard chain returns a plain array unchanged |
| JsonRepair.IntendedQuizKeepsPlainArray | supabase/functions/process-youtube-video/index.ts:875-895 | the intended quiz chain returns a plain array unchanged |
| Records.OrElse | supabase/functions/process-youtube-video/index.ts:629-630 | `value \|\| fallback`: a missing or empty value gives the fallback |
| Records.FilterFlashcards | supabase/functions/process-youtube-video/index.ts:594-598 | exactly the objects with a question over 10 and an answer over 20 characters are kept, each as often as it occurs and in order; none are kept iff none qualify |
| Records.FilterQuestionsAsWritten | supabase/functions/process-youtube-video/index.ts:906-911 | the quiz filter as written keeps exactly the questions passing its field checks, each as often as it occurs and in order; none are kept iff none pass |
| Records.FilterQuestions | supabase/functions/process-youtube-video/index.ts:906-911 | the intended filter also requires the correct answer among the options; it keeps exactly those, with their multiplicities, in order |
| Records.AnswerOutsideOptionsAccepted | supabase/functions/process-youtube-video/index.ts:906-911 | a question whose answer `E` is not among options `A`-`D` passes the filter as written |
| Records.CardRow | supabase/functions/process-youtube-video/index.ts:626-632 | a row carries the difficulty and video id, never an empty field, and a valid card's own question and answer |
| Records.FlashcardRows | supabase/functions/process-youtube-video/index.ts:626-632 | `slice(0, count)` rows (negative counts count back from the end), each tagged and keeping the card's own text where present |
| Records.CorrectAnswerOf | supabase/functions/process-youtube-video/index.ts:960 | the stored answer is never empty and is the given one when present |
| Records.QuestionRowOf | supabase/functions/process-youtube-video/index.ts:956-963 | numbering, at most four options, the defaults for missing fields, and a valid question stored unchanged |
| Records.QuestionRows | supabase/functions/process-youtube-video/index.ts:956-963 | `slice(0, count)` rows numbered from 0 under the quiz id, each with at most four options and a non-empty answer; a question passing the filter as written is stored with its own options and answer, and one passing the intended filter keeps its answer among its options |
| Records.RowsAnswerable | supabase/functions/process-youtube-video/index.ts:956-963 | every row saved from intended-filter questions has four options including its answer |
| Records.RowsAsWritten | supabase/functions/process-youtube-video/index.ts:906-963 | every row saved from questions the filter as written keeps has four options and a non-empty answer |
| Records.UnanswerableRowSaved | supabase/functions/process-youtube-video/index.ts:906-963 | the question with options `A`-`D` and answer `E` is kept by the filter as written and saved as one row whose answer is none of its options |
| Records.QuizRowOf | supabase/functions/process-youtube-video/index.ts:942-949 | the quiz record belongs to the video and is titled `Quiz: <title> (<difficulty>)` |
| Store.Database.InsertVideo | supabase/functions/process-youtube-video/index.ts:58-77 | a refused insert gives "Failed to save video" and changes nothing; otherwise the row is appended and its position is the id |
| Store.Database.SaveFlashcards | supabase/functions/process-youtube-video/index.ts:621-642 | the rows of `FlashcardRows` are appended and returned, or "Failed to save flashcards" with nothing changed; the other tables stay and every card belongs to a stored video |
| Store.Database.SaveQuiz | supabase/functions/process-youtube-video/index.ts:936-972 | the quiz record, then its question rows under the new id; a refused question insert leaves the quiz record behind with its error |
| Concepts.TermsFoundAsWritten | supabase/functions/process-youtube-video/index.ts:702-706 | as written, a term is found iff the term itself occurs in the lower-cased transcript |
| Concepts.TermsFound | supabase/functions/process-youtube-video/index.ts:702-706 | the intended search finds a term iff its lower-case form occurs in the lower-cased transcript |
| Concepts.PushMentioned | supabase/functions/process-youtube-video/index.ts:702-706 | the `forEach`/`push` loop as written collects exactly the terms of `TermsFoundAsWritten`, in list order |
| Concepts.FindTechnicalTerms | supabase/functions/process-youtube-video/index.ts:697-706 | over the three term lists, a term is found iff it occurs as written in the lower-cased transcript |
| Concepts.CamelCaseNeverDetected | supabase/functions/process-youtube-video/index.ts:702-706 | as written, no term with an upper-case letter is ever found |
| Concepts.SelectionMethodsHaveUpper | supabase/functions/process-youtube-video/index.ts:698 | the three selection methods are camel-case |
| Concepts.NoCamelCaseListed | supabase/functions/process-youtube-video/index.ts:717 | as written, filtering the found terms to camel-case names always gives nothing |
| Concepts.MentionedTermFound | supabase/functions/process-youtube-video/index.ts:702-706 | a listed term in the transcript is found by the intended search and missed as written when it has an upper-case letter |
| Concepts.MainTopic | supabase/functions/process-youtube-video/index.ts:756 | the main topic holds no `\|`, and is the trimmed title when the title has none |
| Concepts.SentenceCount | supabase/functions/process-youtube-video/index.ts:690 | the long-sentence count is at most the number of pieces `split(/[.!?]+/)` gives |
| Concepts.When | supabase/functions/process-youtube-video/index.ts:746 | a conditional text fragment is the text or nothing |
| Concepts.JoinedOr | supabase/functions/process-youtube-video/index.ts:764 | an empty list gives the fallback wording |
| Concepts.Question | supabase/functions/process-youtube-video/index.ts:711-774 | the learning-objectives question quotes the main topic |
| Concepts.Answer | supabase/functions/process-youtube-video/index.ts:711-774 | every concept's answer is non-empty |
| Concepts.DomAnswer | supabase/functions/process-youtube-video/index.ts:711-737 | every DOM concept's answer is non-empty |
| Concepts.JsAnswer | supabase/functions/process-youtube-video/index.ts:739-753 | every JavaScript concept's answer is non-empty |
| Concepts.OverviewAnswer | supabase/functions/process-youtube-video/index.ts:755-774 | every general concept's answer is non-empty |
| Concepts.DomConcepts | supabase/functions/process-youtube-video/index.ts:711-737 | selection and event concepts appear iff `element` / `event` were found; the manipulation concept always ends the list and records whether `innerHTML` and `textContent` were found; no JavaScript concept is among them |
| Concepts.JsConcepts | supabase/functions/process-youtube-video/index.ts:739-753 | two concepts; the features are exactly the found terms from the JavaScript list |
| Concepts.TopicConcepts | supabase/functions/process-youtube-video/index.ts:711-753 | the DOM concepts lead when the title mentions DOM; a JavaScript concept appears iff the title mentions JavaScript, and then the two JavaScript concepts end the list; without JavaScript the list is the DOM concepts or nothing; at most five |
| Concepts.GeneralConcepts | supabase/functions/process-youtube-video/index.ts:755-774 | the three general concepts, with the "and more" flag iff over four terms and the progressive flag iff over 20 long sentences |
| Concepts.ConceptsFor | supabase/functions/process-youtube-video/index.ts:710-774 | the list is the topic concepts followed by the three general ones: between 3 and 8 concepts |
| Concepts.KeyConcepts | supabase/functions/process-youtube-video/index.ts:685-778 | the concepts as written: between 3 and 8 for every transcript and title, so the modulo below never divides by zero; a DOM title yields the manipulation concept without `innerHTML` and `textContent`, and no selection concept lists a method |
| Concepts.IntendedKeyConcepts | supabase/functions/process-youtube-video/index.ts:685-778 | with the intended term search also 3 to 8 concepts, and a DOM video mentioning `innerHTML` gets a manipulation concept that lists it |
| Concepts.TopicSelectionConcept | supabase/functions/process-youtube-video/index.ts:711-737 | a topic selection concept lists exactly the found selection methods |
| Concepts.GeneralHasNoSelection | supabase/functions/process-youtube-video/index.ts:756-774 | the general concepts hold no selection concept |
| Concepts.SelectionConceptOf | supabase/functions/process-youtube-video/index.ts:711-774 | every selection concept lists exactly the found selection methods |
| Concepts.DomManipulationIn | supabase/functions/process-youtube-video/index.ts:711-737 | a DOM title yields the manipulation concept, which mentions `innerHTML` and `textContent` iff they were found |
| Concepts.AsWrittenManipulationBare | supabase/functions/process-youtube-video/index.ts:702-737 | as written, a DOM title yields the manipulation concept without `innerHTML` or `textContent`, whatever the transcript says |
| Concepts.AsWrittenSelectionEmpty | supabase/functions/process-youtube-video/index.ts:702-737 | as written, no selection concept ever lists a method |
| Concepts.ManipulationTermsHaveUpper | supabase/functions/process-youtube-video/index.ts:698 | `innerHTML` and `textContent` are camel-case |
| Concepts.AsWrittenDomConceptsMissCamelCase | supabase/functions/process-youtube-video/index.ts:711-737 | as written, the DOM concepts never mention `innerHTML`, `textContent` or any selection method |
| Concepts.PushDomConcepts | supabase/functions/process-youtube-video/index.ts:711-737 | the pushes build exactly `DomConcepts` |
| Concepts.PushTopicConcepts | supabase/functions/process-youtube-video/index.ts:711-753 | the pushes build exactly `TopicConcepts` |
| Concepts.PushGeneralConcepts | supabase/functions/process-youtube-video/index.ts:756-774 | the pushes build exactly `GeneralConcepts` |
| Concepts.ExtractKeyConcepts | supabase/functions/process-youtube-video/index.ts:685-778 | the method returns `KeyConcepts`, the concepts as written: 3 to 8 of them |
| Concepts.Adjust | supabase/functions/process-youtube-video/index.ts:651-670 | an unknown difficulty leaves the concept as it is, and a non-empty answer stays non-empty |
| Concepts.AdjustedCard | supabase/functions/process-youtube-video/index.ts:651-664 | easy keeps the answer's first sentence plus the easy note, medium and hard append their notes; the question gets easy's two first-occurrence swaps ("How does"/"What techniques"/"How are" to "What is", then "are discussed"/"are covered"/"are demonstrated" to "mentioned in this video"), medium's "What" swap unless it says "How" (then it is kept), hard's "What" then "How does" swaps |
| Concepts.MediumWhatQuestion | supabase/functions/process-youtube-video/index.ts:657 | at medium, a question opening with "What" and never saying "How" becomes "How does the video explain" followed by the rest of the question |
| Concepts.DifficultyTag | supabase/functions/process-youtube-video/index.ts:675 | the tag is `[`, the difficulty upper-cased, then `] `; no lower-case ASCII letter remains between the brackets |
| Concepts.Render | supabase/functions/process-youtube-video/index.ts:711-774 | a rendered concept has an answer, and its objectives question quotes the topic |
| Concepts.CardOf | supabase/functions/process-youtube-video/index.ts:669-678 | a template card is the tag followed by the adjusted question, with the adjusted, non-empty answer |
| Concepts.Rendered | supabase/functions/process-youtube-video/index.ts:711-774 | one rendered concept per concept, in order, each with an answer |
| Concepts.CardsFromConcepts | supabase/functions/process-youtube-video/index.ts:668-679 | `Array.from({length: count})` cards, the `i`-th from concept `i mod n` |
| Concepts.TemplateRows | supabase/functions/process-youtube-video/index.ts:668-679 | the saved template rows: `count` of them (none for a negative count), tagged, cycling through the concepts |
| Concepts.GenerateContentAwareFlashcards | supabase/functions/process-youtube-video/index.ts:644-683 | the template rows for the transcript's concepts are appended and returned, or the save error with nothing changed |
| QuizTemplates.Words | supabase/functions/process-youtube-video/index.ts:978 | the lower-cased transcript split on white space gives non-empty words |
| QuizTemplates.WordsAreLower | supabase/functions/process-youtube-video/index.ts:978 | no word has an upper-case letter |
| QuizTemplates.WordTermsAsWritten | supabase/functions/process-youtube-video/index.ts:986-988 | as written, a term is found iff it is itself one of the words |
| QuizTemplates.WordTerms | supabase/functions/process-youtube-video/index.ts:986-988 | the intended search finds a term iff its lower-case form is one of the words |
| QuizTemplates.PushWordTerms | supabase/functions/process-youtube-video/index.ts:986-988 | the loop as written collects exactly `WordTermsAsWritten`, in list order |
| QuizTemplates.FindQuizTerms | supabase/functions/process-youtube-video/index.ts:978-988 | a term is found iff it is itself a word of the lower-cased transcript; no found term has an upper-case letter, so `querySelector` never is |
| QuizTemplates.CamelCaseNeverAWord | supabase/functions/process-youtube-video/index.ts:986-988 | as written, no camel-case term is ever found |
| QuizTemplates.QuerySelectorNeverFound | supabase/functions/process-youtube-video/index.ts:983-988 | as written, `querySelector` is never found |
| QuizTemplates.MentionedWordFound | supabase/functions/process-youtube-video/index.ts:986-988 | a term appearing as a word of the transcript is found by the intended search |
| QuizTemplates.LevelOf | supabase/functions/process-youtube-video/index.ts:1085-1091 | `difficultyModifiers[difficulty]` exists exactly for `easy`, `medium` and `hard` |
| QuizTemplates.NamesDistinct | supabase/functions/process-youtube-video/index.ts:1085-1089 | the three level names differ |
| QuizTemplates.LevelNameRoundTrip | supabase/functions/process-youtube-video/index.ts:1085-1091 | looking up a level's name gives the level back |
| QuizTemplates.DomTemplates | supabase/functions/process-youtube-video/index.ts:996-1050 | two DOM questions for each known difficulty and none otherwise |
| QuizTemplates.JsTemplates | supabase/functions/process-youtube-video/index.ts:1052-1082 | one JavaScript question; the terms it names are found terms, at most two or three |
| QuizTemplates.TopicTemplates | supabase/functions/process-youtube-video/index.ts:996-1082 | DOM questions only for a DOM title; a JavaScript question appears iff the title mentions JavaScript, and then it is the last one; at most three |
| QuizTemplates.PushDomQuestions | supabase/functions/process-youtube-video/index.ts:996-1050 | the pushes build exactly `DomTemplates` |
| QuizTemplates.PushJsQuestion | supabase/functions/process-youtube-video/index.ts:1052-1082 | the branch builds exactly `JsTemplates` |
| QuizTemplates.PushTopicQuestions | supabase/functions/process-youtube-video/index.ts:996-1082 | the pushes build exactly `TopicTemplates` |
| QuizTemplates.QuizTemplatesFor | supabase/functions/process-youtube-video/index.ts:996-1105 | one to four questions, topic questions first, always ending with the general question |
| QuizTemplates.GeneralAnswer | supabase/functions/process-youtube-video/index.ts:1098-1102 | the general question's correct option is non-empty |
| QuizTemplates.GeneralQuestion | supabase/functions/process-youtube-video/index.ts:1095 | the question quotes the main topic after the level's prefix and complexity |
| QuizTemplates.DomBase | supabase/functions/process-youtube-video/index.ts:996-1050 | every DOM question has four options including its answer |
| QuizTemplates.DomEasyBase | supabase/functions/process-youtube-video/index.ts:998-1014 | the easy DOM questions are answerable; the acronym question quotes the topic |
| QuizTemplates.DomMediumBase | supabase/functions/process-youtube-video/index.ts:1016-1032 | the medium DOM questions are answerable |
| QuizTemplates.DomHardBase | supabase/functions/process-youtube-video/index.ts:1034-1049 | the hard DOM questions are answerable |
| QuizTemplates.JsBase | supabase/functions/process-youtube-video/index.ts:1052-1082 | every JavaScript question is answerable |
| QuizTemplates.GeneralBase | supabase/functions/process-youtube-video/index.ts:1093-1105 | the general question is answerable; its second option is the correct one |
| QuizTemplates.Base | supabase/functions/process-youtube-video/index.ts:996-1105 | every template question is answerable |
| QuizTemplates.RenderAll | supabase/functions/process-youtube-video/index.ts:996-1105 | one answerable question per template, in order |
| QuizTemplates.Selected | supabase/functions/process-youtube-video/index.ts:1108-1113 | a selected question is the tag plus the base question, with its options, answer and explanation |
| QuizTemplates.Padded | supabase/functions/process-youtube-video/index.ts:1119-1124 | a padding question is tagged, numbered at its 1-based position, and extends its base's explanation |
| QuizTemplates.EntryOfBase | supabase/functions/process-youtube-video/index.ts:1108-1113 | the first entries are the selected bases |
| QuizTemplates.EntryOfPadding | supabase/functions/process-youtube-video/index.ts:1116-1125 | entry `k` past the bases pads base `k mod n` at position `k+1` |
| QuizTemplates.EntriesExtend | supabase/functions/process-youtube-video/index.ts:1116-1125 | one loop step keeps "entry `k` is `Entry(k)`" |
| QuizTemplates.QuizLength | supabase/functions/process-youtube-video/index.ts:1108-1125 | a non-negative count gives exactly that many questions; a negative one gives the slice length and no padding |
| QuizTemplates.QuizItems | supabase/functions/process-youtube-video/index.ts:1108-1125 | the selected and padded list has the length `QuizLength` gives |
| QuizTemplates.QuizItemsShape | supabase/functions/process-youtube-video/index.ts:1108-1125 | question `k` has base `k mod n`'s options and answer, carries the tag, and is numbered when it is padding |
| QuizTemplates.EntryAnswerable | supabase/functions/process-youtube-video/index.ts:1108-1125 | an entry is answerable when its base is |
| QuizTemplates.QuizItemsAnswerable | supabase/functions/process-youtube-video/index.ts:1108-1125 | every selected or padded question is answerable |
| QuizTemplates.SelectAndPad | supabase/functions/process-youtube-video/index.ts:1108-1125 | the `slice`/`map` and the `while` padding loop compute `QuizItems` |
| QuizTemplates.ContentAwareQuiz | supabase/functions/process-youtube-video/index.ts:974-1125 | the templates as written: a known level yields `questionCount` questions, all answerable |
| QuizTemplates.IntendedContentAwareQuiz | supabase/functions/process-youtube-video/index.ts:974-1125 | with the intended term search, likewise `questionCount` answerable questions |
| QuizTemplates.AsRaw | supabase/functions/process-youtube-video/index.ts:1108-1113 | each template question becomes a record with all four fields present |
| QuizTemplates.SavedTemplateQuizAnswerable | supabase/functions/process-youtube-video/index.ts:956-963 | the saved template questions keep their options and answers, four options each, the answer among them |
| QuizTemplates.GenerateContentAwareQuiz | supabase/functions/process-youtube-video/index.ts:974-1129 | an unknown difficulty throws before any write; otherwise the quiz and its `questionCount` answerable questions are saved; it succeeds iff the difficulty is known and both tables accept, and one quiz record is left behind iff the difficulty is known and the quiz table accepts |
| Pipeline.SettingsOf | supabase/functions/process-youtube-video/index.ts:20 | destructuring defaults replace only missing fields: 15, 10 and `medium` |
| Pipeline.Usable | supabase/functions/process-youtube-video/index.ts:585-602 | records are usable iff the reply parsed and the filter keeps some; they are exactly the kept ones, with their multiplicities, in order |
| Pipeline.ModelCards | supabase/functions/process-youtube-video/index.ts:459-602 | model cards, after the clean-up as written, exist only with a key and a non-empty reply, and are all valid |
| Pipeline.ModelQuestions | supabase/functions/process-youtube-video/index.ts:780-915 | model questions, after the clean-up and filter as written, exist only with a key and a non-empty reply, and all pass the filter as written |
| Pipeline.IntendedModelCards | supabase/functions/process-youtube-video/index.ts:459-602 | with the intended clean-up, model cards likewise exist only with a key and a non-empty reply, and are all valid |
| Pipeline.IntendedModelQuestions | supabase/functions/process-youtube-video/index.ts:780-915 | with the intended clean-up and filter, model questions all pass the intended filter |
| Pipeline.IntendedQuestionsAnswerable | supabase/functions/process-youtube-video/index.ts:906-963 | the rows saved from intended model questions all have four options including their answer |
| Pipeline.GenerateAdvancedFlashcards | supabase/functions/process-youtube-video/index.ts:459-619 | the model's cards when usable, else the template rows; appended to the table, all tagged with the video and difficulty |
| Pipeline.ModelQuiz | supabase/functions/process-youtube-video/index.ts:870-920 | without usable questions it throws with no write; otherwise `saveQuiz` with its outcomes; it succeeds iff there are usable questions and both tables accept; a quiz record is left behind iff there are usable questions and the quiz table accepts; every saved row has four options and a non-empty answer |
| Pipeline.GenerateAdvancedQuiz | supabase/functions/process-youtube-video/index.ts:780-934 | the model's quiz when usable and saved, else the template quiz; it succeeds iff both tables accept and either path has questions; the quiz table gains one record per `saveQuiz` that got past the quiz insert, so a model quiz whose questions were refused leaves an orphan record before the fallback; saved rows have four options and an answer, answerable on the template path |
| Pipeline.QuizRecordsLeft | supabase/functions/process-youtube-video/index.ts:780-934 | the quiz records one call leaves: none when the quiz table refuses; two exactly when the model's questions are usable, the question table refuses and the difficulty is known |
| Pipeline.GenerateBoth | supabase/functions/process-youtube-video/index.ts:82-85 | the flashcards fail iff their table refuses, with the flashcard save error; added cards belong to the video; the quiz succeeds and the quiz table grows as `GenerateAdvancedQuiz` says; saved questions have four options and an answer, answerable on the template path; the video table is unchanged |
| Pipeline.VideoRowFor | supabase/functions/process-youtube-video/index.ts:34-77 | the stored transcript is the first accepted transcript, else the plain fallback, and always has at least 50 characters |
| Pipeline.ResolveTranscript | supabase/functions/process-youtube-video/index.ts:33-47 | the transcript is the first accepted strategy's text, else the plain fallback, and has at least 50 characters |
| Pipeline.ProcessVideo | supabase/functions/process-youtube-video/index.ts:14-106 | an invalid URL or a refused video insert answers with the error and writes nothing; once the video is stored, the response is `Processed` iff the flashcard, quiz and question tables accept and some quiz path has questions, a refused flashcard table gives its error and any other failure a quiz error, and the quiz table grows as `GenerateAdvancedQuiz` says; a success reports what was added, every saved question with four options and an answer (answerable on the template path); the database stays consistent |
| Pipeline.Respond | supabase/functions/process-youtube-video/index.ts:81-105 | after the insert: the first failure, flashcards before quiz, is the response; `Processed` iff the three tables accept and some quiz path has questions; the video table is unchanged |
| ProcessingHook.CountOr | src/hooks/useVideoProcessing.ts:22-23 | `x \|\| d` on a count: missing or 0 gives the default |
| ProcessingHook.CountOrMissing | src/hooks/useVideoProcessing.ts:22-23 | the intended default: only a missing count gives the default |
| ProcessingHook.TextOr | src/hooks/useVideoProcessing.ts:24 | a missing or empty difficulty gives `medium` |
| ProcessingHook.BodyAsWritten | src/hooks/useVideoProcessing.ts:20-25 | the body as written applies `\|\|` to every option |
| ProcessingHook.BodyOf | src/hooks/useVideoProcessing.ts:20-25 | the intended body sends a given count unchanged, including 0 |
| ProcessingHook.ExplicitZeroReplaced | src/hooks/useVideoProcessing.ts:22-23 | the two bodies differ exactly where a count is 0, which the body as written turns into 15 or 10 |
| ProcessingHook.SuccessDescriptionAsWritten | src/hooks/useVideoProcessing.ts:36 | as written, the toast always reports 0 quiz questions |
| ProcessingHook.SuccessDescription | src/hooks/useVideoProcessing.ts:36 | the intended toast reports the flashcard count and the number of saved questions |
| ProcessingHook.TenQuestionsReportedAsZero | src/hooks/useVideoProcessing.ts:36 | with ten saved questions the toast as written differs from the intended one |
| ProcessingHook.FailureToast | src/hooks/useVideoProcessing.ts:42-46 | a destructive toast with the error's message, or "Failed to process video" when the message is empty |
| ProcessingHook.Processor.Start | src/hooks/useVideoProcessing.ts:15-25 | processing starts, the previous video is cleared, and the body as written is built |
| ProcessingHook.Processor.Finish | src/hooks/useVideoProcessing.ts:28-50 | success stores the data with the success toast as written; an error shows the failure toast and is rethrown; processing ends either way |
| ProcessingHook.Processor.ProcessVideo | src/hooks/useVideoProcessing.ts:10-51 | the whole call: the body as written sent, the data or error returned, the stored video and exactly one new toast, the success toast as written |
| IndexPage.Page.constructor | src/pages/Index.tsx:14-20 | the initial page state: empty URL, no data, 15 cards, 10 questions, `medium` |
| IndexPage.Page.CurrentOptions | src/pages/Index.tsx:54-58 | the page passes its three settings as given |
| IndexPage.Page.Send | src/pages/Index.tsx:53-64 | the hook sends the body as written for the page's settings and keeps the returned data, or nothing on error, with exactly one toast for the outcome; the data is shown and the input cleared only when the call and the fetch both succeed |
| IndexPage.HookToast | src/hooks/useVideoProcessing.ts:34-46 | the hook's toast is destructive iff the call failed: the success toast as written, or the failure toast with the error's message |
| IndexPage.Page.HandleSubmit | src/pages/Index.tsx:32-65 | blank input and then invalid URLs are refused with their toasts and no call; otherwise the body is sent, the hook keeps the returned data or nothing, and shows its toast, as `Send` describes |
| IndexPage.LeadingSpaceRejected | src/pages/Index.tsx:35-51 | a URL with a leading space gets past the blank check but not the anchored validator |
| QuizView.Toggle | src/components/VideoResults.tsx:22-30 | toggling flips the card's membership and no other card's |
| QuizView.ToggleTwice | src/components/VideoResults.tsx:22-30 | toggling twice restores the set |
| QuizView.Click | src/components/VideoResults.tsx:216-219 | a click records the option only while the question is unanswered; other questions are untouched |
| QuizView.FirstAnswerFinal | src/components/VideoResults.tsx:200-219 | after a non-empty first choice, later clicks change nothing |
| QuizView.ClicksAfterAnswer | src/components/VideoResults.tsx:216-219 | any clicks on an answered question leave the answers unchanged |
| QuizView.SomeUnanswered | src/components/VideoResults.tsx:259 | true iff some question of the quiz has no truthy answer |
| QuizView.SubmitEnabledIff | src/components/VideoResults.tsx:259 | submit is enabled iff every question is answered |
| QuizView.Score | src/components/VideoResults.tsx:269 | the score is at most the question count, equal to it iff all are correct and 0 iff none are |
| QuizView.AnsweredCount | src/components/VideoResults.tsx:200 | the answered count is at most the question count |
| QuizView.ScoreAtMostAnswered | src/components/VideoResults.tsx:269 | with non-empty correct answers, the score never exceeds the number answered |
| QuizView.QuestionTotal | src/components/VideoResults.tsx:103 | no quizzes means no questions |
| QuizView.QuestionTotalAppend | src/components/VideoResults.tsx:103 | the `reduce` total is additive over concatenation |
| QuizView.SortByOrderIndex | src/components/VideoResults.tsx:188-189 | the in-place sort leaves the questions ordered by `order_index` and is a permutation |
| QuizView.SwapDown | src/components/VideoResults.tsx:188-189 | one exchange of neighbours, nothing else moved, a permutation |
| QuizView.Insert | src/components/VideoResults.tsx:188-189 | inserting the next question keeps the sorted prefix sorted and the contents a permutation |
| QuizView.MoreContentOptions | src/components/VideoResults.tsx:48-52 | "more" asks for `count` of one kind, 0 of the other, at `medium` |
| QuizView.MoreContentRequests | src/components/VideoResults.tsx:46-52 | as written, asking for 10 more questions also regenerates 15 flashcards; the intended body asks for 0 |
| QuizView.Results.constructor | src/components/VideoResults.tsx:17-20 | the view starts with no flipped card, no answer and no submitted quiz |
| QuizView.Results.ToggleCard | src/components/VideoResults.tsx:22-30 | the flipped set becomes `Toggle` of the old one; the answers and submissions stay |
| QuizView.Results.HandleQuizAnswer | src/components/VideoResults.tsx:32-37 | the answer map gains or overwrites exactly that question's entry |
| QuizView.Results.ChooseOption | src/components/VideoResults.tsx:216-219 | an option click updates the answers as `Click` says |
| QuizView.Results.SubmitQuiz | src/components/VideoResults.tsx:39-44 | the quiz is marked submitted; a second submission changes nothing |
| QuizView.Results.ScoreOf | src/components/VideoResults.tsx:269 | the shown score is `Score` of the answers and questions, and never exceeds the question count |
| QuizView.Results.GenerateMoreContent | src/components/VideoResults.tsx:46-59 | the hook is called with the body as written for the "more" options; processing is over afterwards and the hook holds the response only on success |
| Text.Slice0 | supabase/functions/process-youtube-video/index.ts:626 | `slice(0, k)` keeps the first `k` elements, or all of them when there are fewer; a negative `k` counts back from the end |
| Text.ArrayLength | supabase/functions/process-youtube-video/index.ts:668 | `Array.from({length: n})` has length `n`, and 0 for a negative `n` |
| Text.ReplaceFirst | supabase/functions/process-youtube-video/index.ts:657 | a string `replace` changes nothing when the pattern is absent; otherwise it replaces exactly the leftmost occurrence and keeps the text on both sides |
| Text.ReplaceFirstOf | supabase/functions/process-youtube-video/index.ts:653 | a regular-expression alternation `replace` changes nothing when no alternative occurs; otherwise it replaces the alternative found at the leftmost position where any occurs (the first listed winning there) and keeps the text on both sides |

## Left out

- The network is not modelled: the transcript strategies (RapidAPI, official API, page scrape, proxy), the caption download, the Gemini requests and their prompt texts, the page-metadata scrape (`extractVideoData`) and `generateEnhancedSummary` are all inputs. A strategy's outcome is an `Attempt`, the model's reply an `Option<string>`, the metadata a `VideoData` record and the summary a string.
- The regular-expression scraping of caption track URLs (`index.ts` lines 319-350) is not modelled. The caption text after the download is modelled by `Captions.CaptionText`. The proxy strategy decodes no entities (lines 404-408); it is one more `Attempt`.
- `JSON.parse` is an abstract partial function. The model proves that the text handed to it is framed; it does not model JSON syntax.
- Case mapping (`toLowerCase`, `toUpperCase`) is modelled on ASCII only: `A`-`Z` and `a`-`z` map to each other and every other character is kept, so `é` does not become `É` and `ß` does not become `SS`. `\s` and `trim` use the full JavaScript white-space set; `\w` is ASCII, as in JavaScript.
- Lengths count characters (Unicode scalar values), where JavaScript's `.length` counts UTF-16 code units. A character outside the Basic Multilingual Plane (an emoji, say) counts once here and twice in JavaScript, so the length thresholds (`index.ts` lines 177, 295, 381, 597, 690 and 910) can decide differently for such text. Line 295 belongs to a network strategy whose outcome is an input.
- Transcript.Accepted: the "over 100 characters" test (`index.ts` line 177 and the other strategies' tests) counts characters, not UTF-16 units.
- Records.ValidCard: the minimum question and answer lengths (`index.ts` line 597) count characters, not UTF-16 units.
- Records.ValidQuestionAsWritten: the minimum question length (`index.ts` line 910) counts characters, not UTF-16 units.
- Captions.CleanedCaption: the "over 50 characters" test (`index.ts` line 381) counts characters, not UTF-16 units.
- Concepts.SentenceCount: the "over 20 characters" sentence test (`index.ts` line 690) counts characters, not UTF-16 units.
- Concepts.DifficultyTag: upper-cases ASCII letters only, so the tag's length is the difficulty's length plus three; JavaScript's `toUpperCase` may lengthen it (`ß` becomes `SS`).
- `Promise.all` is modelled as running both generators to completion one after the other, flashcards first. When both fail, the flashcards' error is the one reported. Interleaving is not modelled.
- Database row ids are positions in their table, and a refused insert is modelled as a fixed set of tables. Supabase's error objects, row-level security and the `user_id`/`created_at` columns are not modelled. The quiz record's description is kept as an uninterpreted string.
- `fetchVideoData` (`useVideoProcessing.ts` lines 53-83) is an input function of the page: a video id gives a `VideoBundle` or an error.
- React rendering, CSS classes, the form's input event handlers, the flashcard grid and the toast component are not modelled. The state the component updates is modelled.
- An `Object.prototype` key given as difficulty (for example `constructor`) would make `difficultyModifiers[difficulty]` defined in JavaScript. The model treats every difficulty other than `easy`, `medium` and `hard` as the thrown `TypeError` (`QuizTemplates.ModifierError`).
- Counts are unbounded integers. `NaN`, non-integer counts and non-string JSON fields are not modelled. A record field is `None` when it is missing or not a string.
- `Array.prototype.sort` is modelled by an insertion sort on an `array`. The result is sorted by `order_index` and is a permutation; stability is not stated.
- Pipeline.GenerateBoth: states only what its callees' contracts imply (table growth, tagging, answerable rows), not the rows themselves; `GenerateAdvancedFlashcards` and `GenerateAdvancedQuiz` state those.
- ProcessingHook.Processor.ProcessVideo: the response data is what the page reads from it (video id, flashcard count, saved question count), not the whole response object.
- QuizView.Results.GenerateMoreContent: the follow-up `fetchVideoData` and `onDataUpdate` call (`VideoResults.tsx` lines 54-55) is not modelled, since the refreshed data belongs to the parent component; the swallowed error is the hook's `Failure` result.
- Pipeline.ModelQuiz: follows the quiz filter as written (`index.ts` lines 906-911), so it does not promise that a saved question's answer is among its options. `Records.UnanswerableRowSaved` shows a row that breaks this, and `Pipeline.IntendedQuestionsAnswerable` proves it for the intended filter.
- Pipeline.GenerateAdvancedQuiz: promises answerable rows only on the template path, for the same reason as `ModelQuiz`.
- Pipeline.GenerateBoth: promises answerable rows only on the template path, for the same reason as `ModelQuiz`.
- Pipeline.ProcessVideo: promises answerable rows only on the template path, for the same reason as `ModelQuiz`.
- Concepts.KeyConcepts: follows the term search as written (`index.ts` lines 702-706), so a DOM video's concepts never mention `innerHTML`, `textContent` or a selection method. `Concepts.IntendedKeyConcepts` states what the intended search gives.
- Concepts.ExtractKeyConcepts: returns the concepts as written, as `KeyConcepts` does.
- Concepts.GenerateContentAwareFlashcards: builds its cards from the concepts as written, as `KeyConcepts` does.
- Concepts.Question and Concepts.Answer: stated only as "the answer is non-empty" and "the objectives question quotes the topic"; the remaining wording of the texts is not stated.

## Findings

The members that model the program (the request handler, the generators, the hook, the page and the view) follow the code as written, including the defects below. Each defect also has a corrected step, and where it reaches an operation, an `Intended…` version of that operation with the intended property proved.

| source | as written | input that shows it | evidently intended | confidence | as-written member | corrected member |
|---|---|---|---|---|---|---|
| supabase/functions/process-youtube-video/index.ts:570 | `.replace(/[^}]*$/, '}]')` replaces the empty or `]` tail after the last `}` | `[{}]` becomes `[{}}]`, which `JSON.parse` rejects | make sure the text ends with `}]`, leaving a text that already does unchanged | high, not executed | JsonRepair.CloseAsWritten, JsonRepair.CloseAsWrittenDoublesBrace, JsonRepair.CloseAsWrittenExample, JsonRepair.FrameArray, JsonRepair.FramingsDiffer, JsonRepair.AsWrittenChainsDoubleClose | JsonRepair.CloseArray, JsonRepair.IntendedFrameArray, JsonRepair.IntendedFlashcardsKeepPlainArray, JsonRepair.IntendedQuizKeepsPlainArray |
| supabase/functions/process-youtube-video/index.ts:371-375 | the five `replace` calls decode `&amp;` first, so a decoded `&` starts a new entity | `&amp;lt;` (the escaped text `&lt;`) becomes `<` | decode each entity once, so that decoding inverts escaping | high, not executed | Captions.DecodeAsWritten, Captions.ChainDecodesTwice, Captions.DoubleDecoding, Captions.CaptionText | Captions.DecodeEntities, Captions.DecodeEncode, Captions.IntendedCaptionText |
| supabase/functions/process-youtube-video/index.ts:702-706 | camel-case terms are compared with the lower-cased transcript | a transcript mentioning `innerHTML` never finds it; the DOM concepts never list a selection method | compare the lower-cased term | high, not executed | Concepts.TermsFoundAsWritten, Concepts.CamelCaseNeverDetected, Concepts.AsWrittenDomConceptsMissCamelCase, Concepts.AsWrittenManipulationBare, Concepts.AsWrittenSelectionEmpty, Concepts.KeyConcepts | Concepts.TermsFound, Concepts.MentionedTermFound, Concepts.IntendedKeyConcepts |
| supabase/functions/process-youtube-video/index.ts:986-988 | camel-case terms are looked up among lower-cased words | a transcript containing the word `querySelector` never finds it | look up the lower-cased term | high, not executed | QuizTemplates.WordTermsAsWritten, QuizTemplates.QuerySelectorNeverFound, QuizTemplates.FindQuizTerms | QuizTemplates.WordTerms, QuizTemplates.MentionedWordFound, QuizTemplates.IntendedContentAwareQuiz |
| supabase/functions/process-youtube-video/index.ts:906-911 | the quiz filter does not check that `correct_answer` is one of the options | options `A`-`D` with answer `E` is kept and saved as a question nobody can answer | keep only questions whose answer is an option | medium, not executed | Records.AnswerOutsideOptionsAccepted, Records.UnanswerableRowSaved | Records.FilterQuestions, Records.RowsAnswerable, Pipeline.IntendedQuestionsAnswerable |
| supabase/functions/process-youtube-video/index.ts:580-581 | both smart-quote lines replace a straight `"` with itself | a reply with `“` keeps it, and `JSON.parse` rejects it | replace `“` and `”` with `"` | high, not executed | JsonRepair.StraightQuoteAt, JsonRepair.AsWrittenQuoteStepsIdentity, JsonRepair.CurlyQuoteSurvives | JsonRepair.CurlyQuoteAt, JsonRepair.CurlyQuotesReplaced, JsonRepair.IntendedCleanFlashcardJson |
| src/hooks/useVideoProcessing.ts:22-23 | `options?.flashcardCount \|\| 15` turns an explicit 0 into 15 | "generate 10 more questions" sends `flashcardCount: 0` and regenerates 15 flashcards | default only a missing count | high, not executed | ProcessingHook.BodyAsWritten, ProcessingHook.ExplicitZeroReplaced, QuizView.MoreContentRequests, ProcessingHook.Processor.Start | ProcessingHook.BodyOf |
| src/hooks/useVideoProcessing.ts:36 | the toast reads `data.quiz?.questions`, which the response never has | a response with ten saved questions is reported as "0 quiz questions" | report `data.quiz.quiz_questions.length` | high, not executed | ProcessingHook.SuccessDescriptionAsWritten, ProcessingHook.TenQuestionsReportedAsZero, ProcessingHook.Processor.Finish | ProcessingHook.SuccessDescription |
