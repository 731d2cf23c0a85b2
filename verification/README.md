# Slingo payment page: a Dafny model of its state rules

The Slingo page is a single client-side form. It builds a shareable link of one
of four kinds: a payment request, a crowdfunding campaign, a poll or a betting
slip. Beneath the rendering it has a small set of sequential state-transition
rules. This project models those rules and proves what they guarantee:

- the poll's option list: append, remove and update, with at least two options always;
- the betting form's dependent selection: choosing a source clears the event, and
  choosing an event copies its odds from a static per-source table;
- the random short identifier and the link `slingo.pay/<id>?type=<variant>`;
- the predicate that enables the Generate button, over the active form only;
- the synchronous checks on an uploaded image, and removing the image.

## Structure

| file | module | what it holds |
|---|---|---|
| `wrappers.dfy` | `Wrappers` | `Option`; JavaScript's `startsWith` and one-character `indexOf` |
| `short_id.dfy` | `ShortId` | `generateShortId` with `Math.random()` replaced by an oracle |
| `link.dfy` | `Link` | the link type, link assembly, and a reader that inverts it |
| `payment_form.dfy`, `crowdfund_form.dfy` | `PaymentForm`, `CrowdfundForm` | the two plain forms and their field edits |
| `poll_form.dfy` | `PollForm` | the poll form, option editing, and its invariant over edit sequences |
| `betting_form.dfy` | `BettingForm` | the event table, `find`, source and event selection, and the odds invariant |
| `image_upload.dfy` | `ImageUpload` | `handleFileSelect` (synchronous part) and `removeImage` |
| `payment_page.dfy` | `PaymentPage` | the whole page: the active form, the enabling predicate, generation, events |

The page keeps all four form records at once. Switching the link type only moves
the discriminant, and each form keeps its contents. So `Page` holds all four
records plus the `LinkType` tag. The tagged union keyed by the link type is
`ActiveForm`, the record `Active(page)` selects. The page's own `disabled`
expression is `GenerateDisabled`. The validator over the union is `Ready`.
The contract of `GenerateDisabled` states that the two agree.

Randomness is an oracle `draw: nat -> Draw`. `draw(k)` is what the k-th call of
`Math.random()` returns, a real in `[0, 1)`. The rest follows the code: the index
is `floor(r * 36)` and the character is `charAt` of that index. Odds stay as text.
Each odds string is what JavaScript's `toString` gives the table's number literal,
such as `"2.5"` and `"1.95"`.

Two behaviours of the code are worth stating plainly:

- Choosing a betting source clears only the event id; the odds keep their old
  value. `BettingForm.SelectSource` does the same, and
  `BettingForm.SourceChangeKeepsOdds` exhibits the stale odds. The invariant that
  does hold is `BettingForm.OddsAgree`: whenever an event is selected, the odds
  are that event's table odds.
- Removing a poll option refuses at two options or fewer (`length <= 2`), and
  `PollForm.RemoveOption` follows it.

## Model

| member | source | states |
|---|---|---|
| ShortId.DrawIndex | utils/generate-short-id.ts:3 | the index `floor(r * 36)` for any draw `r` in `[0,1)` is a position of the alphabet, so `charAt` never yields "" |
| ShortId.GenerateShortId | utils/generate-short-id.ts:1-3 | the identifier has exactly the requested length; character k is the alphabet symbol the k-th draw selects; every character is in the alphabet (length 0 gives "") |
| ShortId.AlphabetLayout | utils/generate-short-id.ts:2 | the alphabet is 36 symbols: 26 lower-case letters in order, then 10 digits in order |
| ShortId.AlphabetDistinct | utils/generate-short-id.ts:2 | the 36 alphabet positions hold 36 different symbols, so each symbol is selected by exactly one index |
| ShortId.SpellingOracle | utils/generate-short-id.ts:3 | every string over the alphabet, of any length, is produced by some sequence of draws |
| ShortId.DrawsIndependent | utils/generate-short-id.ts:3 | character k depends only on the k-th draw: not on other draws, nor on the requested length |
| ShortId.ShortIdPrefix | utils/generate-short-id.ts:3 | with the same draws, a shorter identifier is a prefix of a longer one |
| Link.TypeNamesDistinct | payment-page.tsx:119-132 | each of the four link types has its own name in the link, and the name reads back to that type |
| Link.AssembleLink | payment-page.tsx:115-131 | the link starts with `slingo.pay/`, then holds exactly the identifier, then ends with `?type=` and the variant's name |
| Link.ParseAssembled | payment-page.tsx:115-131 | reading a link back returns the identifier and the variant it was built from, when the identifier has no `?` |
| Link.AssembleParsed | payment-page.tsx:115-131 | every link that reads back is exactly the link assembled from what it reads back to: the two directions agree |
| PaymentForm.Set | payment-page.tsx:518-590 | a field edit sets that field and leaves every other payment field as it was |
| PaymentForm.ReadyIgnoresOptionalFields | payment-page.tsx:988 | currency and slug edits never change whether the payment form can generate |
| CrowdfundForm.Set | payment-page.tsx:600-696 | a field edit sets that field and leaves every other crowdfunding field as it was |
| CrowdfundForm.ReadyIgnoresOptionalFields | payment-page.tsx:989 | only the title and the goal decide whether the crowdfunding form can generate |
| PollForm.AddOption | payment-page.tsx:196-201 | appends exactly one blank option; existing options keep their positions and texts; no other poll field changes; two or more options stay two or more |
| PollForm.RemoveOption | payment-page.tsx:203-211 | with two options or fewer it changes nothing; above that it removes the option `splice` designates (in-range, negative from the end, none past the end) and keeps the rest in order; no other field changes; never drops below two |
| PollForm.SpliceOne | payment-page.tsx:206 | `splice(start, 1)` removes position `start` when it is in range, position `length + start` when `start` is negative down to `-length`, position 0 below that, and nothing at or past the end or on an empty list |
| PollForm.RemovedAtIsSlice | payment-page.tsx:205-206 | a removal at position i leaves exactly `options[..i] + options[i+1..]` |
| PollForm.UpdateOption | payment-page.tsx:213-220 | the length is unchanged, position i takes the value, every other position and every other poll field stays |
| PollForm.Set | payment-page.tsx:706-785 | a text-field edit sets that field and leaves the other text fields, the options and the multiple-choice switch as they were |
| PollForm.Apply | payment-page.tsx:196-220 | every poll edit keeps at least two options; edits other than add, remove and update leave the options alone |
| PollForm.RunKeepsTwoOptions | payment-page.tsx:56 | starting from at least two options (the initial `["", ""]`), every sequence of edits the form can issue keeps at least two |
| PollForm.AddedOptionBlocks | payment-page.tsx:990 | after an option is added, the poll cannot generate until the new option is filled in |
| BettingForm.SourcesHaveEvents | payment-page.tsx:75-98 | the source select offers exactly the three sources the table has lists for, and each list has three events |
| BettingForm.TableIdsUnique | payment-page.tsx:82-98 | within each source's list no two events share an id |
| BettingForm.TableOddsAt | payment-page.tsx:82-98 | looking up the id of any event in a source's list gives that event's own odds |
| BettingForm.TableOddsValues | payment-page.tsx:82-98 | the odds of each of the nine events (bet365: 2.5, 1.95, 1.75; stake: 3.2, 1.5, 2.1; draftkings: 1.9, 2.2, 2.4), and none for an id of another source |
| BettingForm.Find | payment-page.tsx:232 | `find` returns the first event with the id, or nothing exactly when no event has it |
| BettingForm.FindUnique | payment-page.tsx:232 | in a list without duplicate ids, `find` returns the one event with that id |
| BettingForm.SelectSource | payment-page.tsx:222-228 | the source is set and the event id cleared; the odds and every other field stay |
| BettingForm.SelectEvent | payment-page.tsx:230-239 | fails exactly when the current source has no list; otherwise sets the event id, takes the odds of the event with that id or "" when none matches, and changes nothing else |
| BettingForm.Set | payment-page.tsx:795-929 | a text-field edit sets that field and leaves the other text fields, the source, the event and the odds as they were |
| BettingForm.Apply | payment-page.tsx:222-239 | every betting edit preserves the agreement of the odds with the selected event; only choosing an event changes the odds |
| BettingForm.SourceChangeBlocks | payment-page.tsx:222-228 | after a source change the betting form cannot generate until an event is chosen again |
| BettingForm.SourceChangeKeepsOdds | payment-page.tsx:222-239 | choosing event b365-1 sets odds "2.5"; changing the source afterwards clears the event but leaves the odds "2.5" |
| ImageUpload.SelectFile | payment-page.tsx:148-161 | a file is accepted exactly when its type starts with `image/` and its size is at most 5 MiB; the type is checked first; a rejected file changes nothing; an accepted file becomes the image file |
| ImageUpload.RemoveImage | payment-page.tsx:188-194 | clears both the image file and the preview, returning to the state on load |
| ImageUpload.SizeExamples | payment-page.tsx:155-159 | a 6 MiB image is rejected as too large with no change; a 4 MiB PNG is accepted |
| ImageUpload.SizeBoundary | payment-page.tsx:156 | exactly 5 MiB is accepted; one byte more is rejected |
| ImageUpload.TypeExamples | payment-page.tsx:150 | a PDF is rejected, and so is `IMAGE/PNG`, because the prefix check is case-sensitive |
| PaymentPage.Active | payment-page.tsx:23 | the record selected is tagged with the current link type and holds that type's form record exactly as the page keeps it |
| PaymentPage.GenerateDisabled | payment-page.tsx:987-992 | the page's `disabled` disjunction holds exactly when the active record fails its variant's validator |
| PaymentPage.EnabledPerVariant | payment-page.tsx:987-992 | payment is enabled iff description and amount are given; crowdfund iff title and goal; poll iff the question is given and no option is blank; betting iff title, event and stake are given |
| PaymentPage.PaymentExamples | payment-page.tsx:988 | a payment with an empty amount is disabled; with a description and an amount it is enabled |
| PaymentPage.GenerateLink | payment-page.tsx:114-136 | opens the preview and stores a link that reads back to a fresh default-length identifier and the current link type; nothing else changes |
| PaymentPage.NoQueryInId | utils/generate-short-id.ts:2 | identifiers never contain `?`, so the identifier segment of a link is delimited |
| PaymentPage.GeneratedLinkShape | payment-page.tsx:114-131 | the generated link is `slingo.pay/`, five alphabet characters, then `?type=` and the variant's name |
| PaymentPage.PressGenerate | payment-page.tsx:984-992 | a click generates a link exactly when the active record is ready, and otherwise changes nothing |
| PaymentPage.InitialValid | payment-page.tsx:35-72 | the invariants' base case: on load the poll has at least two options and the betting odds agree with the selected event (none is selected) |
| PaymentPage.Step | payment-page.tsx:480-992 | each event runs its own handler on its own part of the page: the link type changes only on a type choice, each form only on its own edits, the image only on a file pick or removal, the link and the preview only on Generate; every event keeps the page's invariants |
| PaymentPage.RunPreservesValid | payment-page.tsx:196-239 | every state reached by a sequence of events keeps at least two poll options and betting odds that match the selected event |
| PaymentPage.SwitchingTypesKeepsForms | payment-page.tsx:480-505 | switching to another link type and back restores the page exactly: no form loses its contents |
| PaymentPage.InactiveEditsKeepEnablement | payment-page.tsx:987-992 | editing a form that is not active never changes whether the Generate button is enabled |

## Left out

- Rendering: the JSX, the preview cards and their fallback texts ("Untitled Payment"), the QR code, images, dialogs and tabs. These are presentation only.
- The potential-win display (`parseFloat(stake) * parseFloat(odds)` with `toFixed(2)`). This is floating-point formatting.
- The asynchronous `FileReader` decode that sets the image preview. `ImageUpload.SelectFile` therefore leaves the preview as it was when it accepts a file.
- The drag-and-drop handlers. They only toggle the drag highlight and pass the first dropped file to the same check, `handleFileSelect`.
- Clipboard copy and its two-second reset of the copied flag. This is asynchronous browser I/O.
- The theme: reading `localStorage` and `matchMedia`, persisting the choice, and toggling the document class. These are browser side effects.
- Date formatting of deadlines, the Connect Wallet button and the history tab. None of them has logic.
- `Math.random()` itself. It is an oracle parameter. Draws are exact reals in `[0, 1)`, so the floating-point rounding of `r * 36` is not modelled.
- PollForm.UpdateOption: requires an index of the current list. The page calls it only with the index of a rendered option. JavaScript's write past the end of an array, which leaves holes, is not modelled. At page level such an event is reported as not issuable (`None`).
- ShortId.GenerateShortId: the length is a natural number. JavaScript's clamping of a negative or fractional `length` in `Array.from` is not modelled. The page always uses the default of 5.
- BettingForm.SelectEvent: an unknown source makes the handler throw. This is modelled as `None`, and as "state unchanged" at page level. React's error reporting is not modelled.
