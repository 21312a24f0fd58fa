# Product passport: a Dafny model

This project models the logic of a small product-passport web app. The app is
a React/TypeScript front end over a fixed catalog of three carton products. A
shopper scans packs and reads each product's passport: origin, digital label,
farm-to-home journey, sustainability score and reviews. The shopper can compare
products side by side, read the community's reviews and ask a scripted
assistant, "Packy".

Each module follows one source file:

- `MockProducts` holds the product, journey-step and review records, and the three-product catalog with its exact data.
- `SustainabilityBar` covers the five pillar segments and the per-pillar colour band. It also has the headline score `Math.round(sum / 5)`, computed exactly in integers and proved against the meaning of `Math.round`.
- `Compare` is the nine-row comparison table, rendered over the whole catalog.
- `ScanLanding` is the scan list of the landing page (`Index.tsx`). It starts with the first catalog product, each press appends the next one, and the Compare link appears once two products are scanned.
- `ProductDetail` covers:
  - the route lookup (`find` by id, and "Product not found");
  - the hero chips;
  - the tab state with exactly one visible panel;
  - the digital label toggle, with its allergen block and the camel-case nutrition captions.
- `ProductCard` holds the status badge maps, the Organic chip and the optional footer.
- `ReviewsList` covers the five-star rule.
- `JourneyTimeline` covers the icon, connector and date-line rules.
- `Community` is the flattened, name-annotated review list and its filter buttons. The buttons do not filter.
- `PackyChat` covers:
  - the send guard on trimmed text;
  - the reply table with its fallback;
  - the reply timers as a first-in, first-out queue;
  - the mic toggle.
- Helper modules:
  - `JsText` is `String.prototype.trim` with the white-space set of sections 12.2 and 12.3 of ECMA-262;
  - `Decimal` is the decimal text a template literal gives a whole number;
  - `Wrappers` holds `Option`.

Points of the app's behaviour that the model follows as the code has them:

- The Compare page always shows the whole catalog, not the scanned list. It has no focus product and no per-cell difference flags.
- The scan list starts as `[mockProducts[0]]`, and each press appends the next catalog product by position. Nothing removes duplicates; a prefix of a catalog with distinct ids simply has none.
- Pillar values are never validated: the scorer uses them as given.
- Reply timers are never cancelled, not even when the chat unmounts.

Calls the model cannot see are parameters:

- `new Date(s).toLocaleDateString()` depends on the locale and the clock. Every operation that shows a date takes it as a function `formatDate: string -> string`.
- `Date.now()` message ids are not modelled.

## Model

| member | source | states |
|---|---|---|
| MockProducts.CatalogIds | src/data/mockProducts.ts:43-135 | The catalog has three products, "milk-001", "juice-001" and "oat-001", in that order, with distinct ids. |
| MockProducts.CatalogPillarsInRange | src/data/mockProducts.ts:58-119 | Every catalog product's five pillar values lie in [0, 100]. |
| MockProducts.CatalogRatingsInRange | src/data/mockProducts.ts:70-132 | Every review rating in the catalog lies in 1..5. |
| MockProducts.ShapeIsCompletedPrefix | src/data/mockProducts.ts:61-68 | A journey of five completed steps followed by an open "At Home" step has its completed steps first. |
| MockProducts.CatalogJourneys | src/data/mockProducts.ts:61-129 | Every catalog journey has six steps, five completed, then an open "At Home" step. |
| SustainabilityBar.RoundFifth | src/components/product/SustainabilityBar.tsx:22 | The integer result is the unique nearest integer to sum / 5, with halves rounded up, as `Math.round` defines it. |
| SustainabilityBar.ReduceValues | src/components/product/SustainabilityBar.tsx:22 | The left fold with `+` over `Object.values(data)`, from 0, equals the plain sum of the five pillars. |
| SustainabilityBar.Average | src/components/product/SustainabilityBar.tsx:22 | The headline score is `Math.round` of the pillar sum divided by five. |
| SustainabilityBar.GetColor | src/components/product/SustainabilityBar.tsx:15-19 | High iff v >= 80, medium iff 60 <= v < 80, low iff v < 60. Each lower bound is inclusive. |
| SustainabilityBar.SegmentsArePillars | src/components/product/SustainabilityBar.tsx:7-13 | There are five segments, one per pillar, each pillar exactly once, in the order CO₂, recyclability, animal welfare, local sourcing, packaging. |
| SustainabilityBar.HeadlineMatchesGetColor | src/components/product/SustainabilityBar.tsx:30 | The headline badge's nested conditional (`HeadlineBand`) bands a score exactly as `getColor` does. |
| SustainabilityBar.HeadlineTintMatchesSegment | src/components/product/SustainabilityBar.tsx:15-30 | The headline badge is tinted with the colour class `getColor` gives a segment of the same value, and distinct bands have distinct colour classes. |
| SustainabilityBar.AverageInRange | src/components/product/SustainabilityBar.tsx:22 | Pillars in [0, 100] give a headline score in [0, 100]. |
| SustainabilityBar.AverageMonotone | src/components/product/SustainabilityBar.tsx:22 | Raising any one pillar never lowers the headline score. |
| SustainabilityBar.RenderConsistent | src/components/product/SustainabilityBar.tsx:36-53 | The rendered bar (`Render`) shows five rows, one per segment in order. Each row shows its pillar's value, banded by `getColor`, and the headline band is `getColor` of the average. |
| SustainabilityBar.CatalogScores | src/data/mockProducts.ts:58-119 | The catalog's products score 90 (high), 77 (medium) and 91 (high). |
| Decimal.NatText | src/pages/Compare.tsx:28 | A natural's text is non-empty, all digits, with no leading zero. |
| Decimal.NatTextRoundTrip | src/pages/Compare.tsx:28 | Reading the digit text back gives the number. |
| Decimal.IntTextSign | src/pages/Compare.tsx:27-28 | The template-literal text (`IntText`) starts with "-" exactly for a negative number. |
| Decimal.NatTextInjective | src/pages/Compare.tsx:28 | Distinct naturals have distinct texts. |
| Decimal.IntTextInjective | src/pages/Compare.tsx:27-28 | Distinct integers have distinct texts, so a percentage cell determines its number. |
| Compare.RowLabels | src/pages/Compare.tsx:20-30 | There are nine rows with distinct labels, in the page's order. |
| Compare.Table | src/pages/Compare.tsx:61-70 | The table has nine rows of one cell per product, whatever the number of products. Cell (i, j) is row i's `render` (`Compare.Render`) of product j. |
| Compare.TableSideBySide | src/pages/Compare.tsx:66-70 | A column depends only on its own product: the table of a concatenation is the row-wise concatenation of the tables. |
| Compare.EcoScoreMatchesScorer | src/pages/Compare.tsx:27 | The Eco Score row repeats the formula inline, and its cell equals the scorer's headline average followed by "%". |
| Compare.OriginMatchesDetail | src/pages/Compare.tsx:21 | The Origin cell is the same "Region, Country" text the detail page shows. |
| Compare.OrganicCell | src/pages/Compare.tsx:23 | The Organic cell is always "✅ Yes" or "❌ No". It says yes exactly when the detail hero shows the Organic chip, and exactly when the product card shows it. |
| Compare.CellsMatchOtherViews | src/pages/Compare.tsx:22-29 | The Fat, Sugar and Protein cells show the same values as the digital label's fat, sugar and protein cells. The Recyclability cell is the sustainability bar's Recyclability percentage with "%". The Expiry cell is the product card footer's date. |
| Compare.RecyclabilityCellDeterminesPillar | src/pages/Compare.tsx:28 | Two products with the same Recyclability cell have the same recyclability pillar: the cell loses no information. |
| Compare.CatalogEcoScores | src/pages/Compare.tsx:18-27 | On the catalog the Eco Score row reads "90%", "77%", "91%". |
| ScanLanding.InitialScanned | src/pages/Index.tsx:12 | The list starts as the one-product prefix of the catalog. |
| ScanLanding.ScanMore | src/pages/Index.tsx:14-18 | A press keeps every product scanned so far, in place, and adds at most one. It adds one exactly while the list is shorter than the catalog, and the one it adds is the catalog product at the list's length. |
| ScanLanding.ScanMorePreserves | src/pages/Index.tsx:14-18 | A press keeps the list a non-empty catalog prefix. It reveals exactly the next catalog product, or changes nothing once the catalog is exhausted. |
| ScanLanding.ScanMoreIdempotent | src/pages/Index.tsx:15 | Once every product is scanned, pressing again changes nothing. |
| ScanLanding.ScanTimesIsPrefix | src/pages/Index.tsx:12-18 | After n presses the list is the first min(n + 1, catalog size) catalog products. |
| ScanLanding.NoDuplicateScans | src/pages/Index.tsx:16 | With distinct catalog ids the scanned list never holds a product twice. |
| ScanLanding.CompareLinkAfterFirstScan | src/pages/Index.tsx:47-57 | For a catalog of two or more, the Compare link is shown iff at least one press has happened. After n presses the heading counts min(n + 1, catalog size) products. |
| ScanLanding.CatalogScans | src/pages/Index.tsx:12-18 | On the catalog: two presses reveal all three products, and a third press changes nothing. |
| ProductDetail.FindFrom | src/pages/ProductDetail.tsx:26 | The search returns the position of the first product at or after k with the id, or none iff no such product exists. |
| ProductDetail.Find | src/pages/ProductDetail.tsx:26 | `find` returns none iff no product has the id, and otherwise the first product that has it. |
| ProductDetail.FindOwnId | src/pages/ProductDetail.tsx:26 | With distinct ids, looking up a catalog product's own id finds that product. |
| ProductDetail.DetailPage | src/pages/ProductDetail.tsx:26-39 | The route shows "Product not found" exactly when no catalog product has the id. Otherwise it shows the hero and the panels of the product `find` returned, the first with that id. |
| ProductDetail.CertChips | src/pages/ProductDetail.tsx:59-61 | The hero shows the first min(2, n) certifications, in order. |
| ProductDetail.HeroOf | src/pages/ProductDetail.tsx:51-61 | The hero shows the product's name, brand and volume. Its Organic chip shows iff the product is organic, followed by the certification chips of `CertChips`: the first min(2, n) certifications, in order. |
| ProductDetail.NutritionLabel | src/pages/ProductDetail.tsx:144 | The caption from `replace(/([A-Z])/g, ' $1')` never starts with an upper-case letter. |
| ProductDetail.LabelLength | src/pages/ProductDetail.tsx:144 | The caption is one character longer per upper-case ASCII letter of the key. |
| ProductDetail.LabelRoundTrip | src/pages/ProductDetail.tsx:144 | Removing the inserted spaces recovers the key, for every key. |
| ProductDetail.LowercaseLabelUnchanged | src/pages/ProductDetail.tsx:144 | A key without upper-case letters is shown unchanged. |
| ProductDetail.LabelAppend | src/pages/ProductDetail.tsx:144 | The replacement works character by character: the caption of a concatenation is the concatenation of the captions. |
| ProductDetail.LabelUpperHead | src/pages/ProductDetail.tsx:144 | An upper-case letter followed by lower-case text gains a space before it. |
| ProductDetail.CamelLabel | src/pages/ProductDetail.tsx:144 | One upper-case letter between lower-case words gains exactly one space before it. |
| ProductDetail.NutritionKeys | src/pages/ProductDetail.tsx:142 | `Object.entries(nutrition)` gives six entries with distinct keys, in declaration order. |
| ProductDetail.KeyLabel | src/pages/ProductDetail.tsx:142-145 | "saturatedFat" is shown as "saturated Fat", and the other five keys unchanged. |
| ProductDetail.DigitalLabelCaptions | src/pages/ProductDetail.tsx:124-149 | The label loses nothing. The ingredients text is the product's. The allergen block, read as empty when absent, is the product's allergen list. Caption i, with the inserted spaces removed, is the i-th nutrition key, and the cell carries that entry's value. The six captions are distinct. |
| ProductDetail.SelectTab | src/pages/ProductDetail.tsx:73 | Choosing a tab sets the active tab and leaves the label toggle alone. |
| ProductDetail.ToggleLabel | src/pages/ProductDetail.tsx:116 | The toggle flips the label's visibility and leaves the tab alone. |
| ProductDetail.ToggleTwice | src/pages/ProductDetail.tsx:116 | Toggling twice restores the state. |
| ProductDetail.TabsDistinct | src/pages/ProductDetail.tsx:27-37 | There are four tabs with distinct keys, and the page opens on Info with the label closed. |
| ProductDetail.ExactlyOnePanel | src/pages/ProductDetail.tsx:86-193 | Of the four conditional blocks (`Panels`), exactly one is shown: the active tab's. |
| ProductDetail.InfoPanelLabel | src/pages/ProductDetail.tsx:86-122 | On the Info tab the digital label is shown iff it is toggled open, and the Origin card shows "Region, Country". |
| ProductDetail.CatalogDetail | src/pages/ProductDetail.tsx:26-129 | On the catalog: the milk shows the "Milk" allergen and two of its three certifications. The juice has no allergen block. An unknown id finds nothing. |
| ProductCard.StatusMapsInjective | src/components/product/ProductCard.tsx:15-33 | Both switches cover all five statuses and give each status its own label and its own colour classes. |
| ProductCard.StatusLabelInjective | src/components/product/ProductCard.tsx:25-33 | Distinct statuses get distinct badge labels from `getStatusLabel` (`StatusLabel`). |
| ProductCard.ExpiryColorInjective | src/components/product/ProductCard.tsx:15-23 | Distinct statuses get distinct badge colour classes from `getExpiryColor` (`ExpiryColor`). |
| ProductCard.CardOf | src/components/product/ProductCard.tsx:41-78 | The Organic chip shows iff the product is organic. The footer shows iff `compact` is not true (absent counts as false), and it shows the origin country. |
| ProductCard.BadgeOnlyFromStatus | src/components/product/ProductCard.tsx:58-59 | Cards of products with the same status carry the same badge, whatever their expiry dates. |
| ProductCard.BadgeSeparatesStatuses | src/components/product/ProductCard.tsx:58-59 | Products with different statuses get different badge texts. |
| ProductCard.CatalogBadges | src/data/mockProducts.ts:52-113 | The catalog's badges read "🟢 Fresh", "🟡 Expires soon" and "🟢 Fresh". |
| ReviewsList.FilledUpToClamp | src/components/product/ReviewsList.tsx:19-20 | Among the first k stars, clamp(rating, 0, k) are filled. |
| ReviewsList.StarsRule | src/components/product/ReviewsList.tsx:19-20 | A card's stars (`Stars`) are five, with clamp(rating, 0, 5) of them filled. That is exactly the rating for ratings 1..5, and the filled stars come first. |
| ReviewsList.CardsFollowReviews | src/components/product/ReviewsList.tsx:8-24 | There is one card per review, in input order, each with that review's user, text and star count. |
| Community.AnnotateKeepsFields | src/pages/Community.tsx:11 | The spread (`Annotate`) keeps every review field and only adds the product name. |
| Community.AllReviews | src/pages/Community.tsx:11 | The flattened list is as long as the total number of reviews. |
| Community.AllReviewsSingle | src/pages/Community.tsx:11 | A single product contributes its own reviews in their order, each labelled with its name. With `AllReviewsAppend` this makes the list the concatenation, in catalog order, of each product's annotated reviews. |
| Community.AllReviewsMembers | src/pages/Community.tsx:11 | Every entry of the flattened list (`AllReviews` over `AnnotatedOf`) is a review of some product, labelled with that product's name, and every review of every product appears so labelled. |
| Community.AllReviewsAppend | src/pages/Community.tsx:11 | Flattening follows catalog order: the list for a concatenation is the concatenation of the lists. |
| Community.SelectFilter | src/pages/Community.tsx:26 | Clicking a filter makes it the active one. |
| Community.FiltersDoNotFilter | src/pages/Community.tsx:8-60 | There are five distinct filters, with "Newest" active at first. The active filter never changes the list shown (`ShownReviews`), which holds every review. |
| Community.CatalogReviews | src/pages/Community.tsx:11 | The catalog gives seven reviews, the milk's first and the oat drink's last. |
| JourneyTimeline.StepRules | src/components/product/JourneyTimeline.tsx:8-24 | The rows (`RowOf`, `Timeline`) read back as the journey. Each row shows its step's title and detail, its icon recovers the completed flag, and it lacks a date line exactly for an undated step. A connector is success-coloured exactly under a check icon, and only the last row lacks one. When completed steps come first, so do the check icons and the success connectors. |
| JourneyTimeline.TimelineAppend | src/components/product/JourneyTimeline.tsx:8-24 | A row depends only on its own step and on whether it is last. The timeline of a + b is a's rows, the formerly last of them gaining a connector coloured by its step, followed by b's rows. |
| JourneyTimeline.ConnectorsUpToCount | src/components/product/JourneyTimeline.tsx:17 | Among the first k rows, every row but a final last row has a connector. |
| JourneyTimeline.ConnectorTotal | src/components/product/JourneyTimeline.tsx:17 | n steps give max(n - 1, 0) connectors. |
| JourneyTimeline.CatalogDateLines | src/data/mockProducts.ts:67-128 | The oat drink's "At Home" step has no date line and the milk's has one. The last step has no connector. |
| JsText.TrimStart | src/components/PackyChat.tsx:37 | The result is a suffix of the input, behind an all-white prefix, and it does not start with white space. |
| JsText.TrimEnd | src/components/PackyChat.tsx:37 | The result is a prefix of the input, before an all-white suffix, and it does not end with white space. |
| JsText.Trim | src/components/PackyChat.tsx:37-38 | The result is the infix between white-only ends, with non-white first and last characters. It is empty iff the input is all white space. |
| JsText.TrimInfix | src/components/PackyChat.tsx:37-38 | Trimming both ends leaves an infix framed by white-only text. |
| JsText.TrimEmpty | src/components/PackyChat.tsx:37 | Trimming yields the empty text iff the input is all white space. |
| JsText.TrimOfTrimmed | src/components/PackyChat.tsx:5-10 | Text with non-white ends is its own trim. |
| JsText.TrimIdempotent | src/components/PackyChat.tsx:37 | Trimming twice is trimming once: a text that passed the guard's trim is unchanged by another. |
| PackyChat.PackyTable | src/components/PackyChat.tsx:18-23 | The table holds the four suggestion questions, each with its own answer. |
| PackyChat.PackyAnswers | src/components/PackyChat.tsx:19-22 | The table's answers are the four scripted texts. |
| PackyChat.PackyDistinguished | src/components/PackyChat.tsx:18-44 | No answer is empty, and none equals the fallback text. |
| PackyChat.Reply | src/components/PackyChat.tsx:44 | A table question gets its own answer, and any other query the fallback. For a table whose answers are non-empty and differ from the fallback, the reply is the fallback iff the question is not in the table. |
| PackyChat.SuggestionsAnswered | src/components/PackyChat.tsx:5-23 | Every suggestion chip is a table question and gets a scripted answer, never the fallback. |
| PackyChat.ShortQueryNotInTable | src/components/PackyChat.tsx:18-23 | No query shorter than 25 characters is a table question. |
| PackyChat.IndexAsWritten | src/components/PackyChat.tsx:18-23 | Indexing the object literal finds an own text iff the query is a table question. Otherwise it finds an inherited member iff the query names an `Object.prototype` member, and `undefined` in every other case. |
| PackyChat.ReplyAsWritten | src/components/PackyChat.tsx:44 | The logical-or fallback never leaves the reply undefined, and a text reply is non-empty when the fallback is. The reply is an inherited member exactly for an inherited name outside the table. |
| PackyChat.InheritedReplyAsWritten | src/components/PackyChat.tsx:18-23 | As written, a query naming an `Object.prototype` member gets that inherited member as its reply. The corrected `Reply` gives the fallback. |
| PackyChat.ToStringReachesLookup | src/components/PackyChat.tsx:37-44 | Typing "toString" passes the blank-input guard unchanged and is an inherited name. |
| PackyChat.ReplyAgreesAsWritten | src/components/PackyChat.tsx:44 | Outside the inherited names, the as-written lookup with its logical-or fallback and the corrected `Reply` agree. |
| PackyChat.Post | src/components/PackyChat.tsx:38-41 | Posting appends exactly the user's message, clears the input, shows the typing indicator and schedules one reply. |
| PackyChat.SendMessage | src/components/PackyChat.tsx:36-48 | Sending changes nothing iff the trimmed text is empty. Otherwise it posts the trimmed text. |
| PackyChat.SendInput | src/components/PackyChat.tsx:142-165 | Enter or the Send button changes nothing iff the trimmed input is empty. Otherwise it clears the box and appends the trimmed input as the user's message. |
| PackyChat.SendDisabledIffNoop | src/components/PackyChat.tsx:165-166 | The Send button is disabled exactly when pressing it would change nothing. |
| PackyChat.SetInput | src/components/PackyChat.tsx:141 | Typing sets the input and changes nothing else: the messages, the timers, the typing indicator and the talking flag stay as they were. |
| PackyChat.DeliverReply | src/components/PackyChat.tsx:43-47 | The oldest timer fires: its reply is appended, it leaves the queue, and the typing indicator is cleared. With no timer running nothing changes. |
| PackyChat.DeliverAgreesAsWritten | src/components/PackyChat.tsx:43-45 | For a distinguished table and a pending query that names no `Object.prototype` member, the appended reply is the text the code as written computes. |
| PackyChat.ToggleMic | src/components/PackyChat.tsx:50-52 | The mic toggle flips the talking flag and changes nothing else: messages, input, typing indicator and pending timers stay as they were. |
| PackyChat.ToggleMicTwice | src/components/PackyChat.tsx:50-52 | Toggling twice restores the state. |
| PackyChat.TypingClearedEarly | src/components/PackyChat.tsx:41-46 | After two quick sends, the first reply clears the typing indicator while the second is still pending. |
| PackyChat.InitialAnswered | src/components/PackyChat.tsx:26-29 | The empty chat satisfies the invariant: the replies to the user's messages are the assistant's messages followed by the pending replies. |
| PackyChat.PostKeepsAnswered | src/components/PackyChat.tsx:38-41 | Posting a question keeps the invariant. |
| PackyChat.SendKeepsAnswered | src/components/PackyChat.tsx:36-48 | Sending keeps the invariant: each question is answered once, in the order asked. |
| PackyChat.DeliverKeepsAnswered | src/components/PackyChat.tsx:43-47 | A timer firing keeps the invariant. |
| PackyChat.SuggestionTrimmed | src/components/PackyChat.tsx:5-10 | The suggestion texts have no surrounding white space. |
| PackyChat.SendSuggestion | src/components/PackyChat.tsx:128 | Clicking a chip on a fresh chat posts the chip's text unchanged. |
| PackyChat.SuggestionConversation | src/components/PackyChat.tsx:80-128 | A chip on a fresh chat, once its timer fires, gives the chip's question followed by its scripted answer. The typing indicator is off and the chips are hidden. |

## Left out

- Rendering: layout, Tailwind classes other than the badge maps and colour bands, icons, images, animations (framer-motion) and the opacity and width styling of the bar segments. The segment opacity is floating point and shows no logic.
- Routing, authentication, the bottom navigation and the Home, Auth, Profile, Rewards and guest-lock screens. They only show fixed content or navigate.
- The four fixed recycling-guide lines and the static "Verified Authentic" card of the Info tab, which show no logic beyond fixed text and the batch and serial fields.
- The CSS `capitalize` applied to nutrition captions. It is a style, not a text change; `NutritionLabel` models the text the `replace` produces.
- Locale date formatting (`toLocaleDateString`) is a parameter, and message ids from `Date.now()` are not modelled.
- Timer delays, scrolling and the 1200 ms wait. The chat models only the order in which the timers fire: equal delays fire in the order set.
- `handleScanMore` reads `scannedProducts.length` from its render while appending with the functional update. Two presses before a re-render could append `mockProducts[prev.length]` past the end. The model treats each press as completing before the next.
- Pillar values and ratings are modelled as integers. The catalog holds only whole numbers, and `Math.round` of a fifth of an integer is exact in integer arithmetic. Fractional inputs are not modelled.
- Decimal.IntText: covers the whole numbers a template literal prints. Exponent notation for very large or very small JavaScript numbers is not modelled.
- PackyChat.DeliverReply: the chat appends the corrected `Reply`. For a query naming an `Object.prototype` member the code as written appends that inherited member instead (the finding below); `ReplyAsWritten` models that reply, and `DeliverAgreesAsWritten` shows the two agree on every other query.

## Findings

| source | as written | input that shows it | evidently intended | confidence | as-written member | corrected member |
|---|---|---|---|---|---|---|
| src/components/PackyChat.tsx:44 | The reply is `packyReplies[text.trim()]` or else the fallback, and `packyReplies` is a plain object literal. A query naming an inherited `Object.prototype` member yields that member, which is truthy, so it becomes the reply instead of the fallback. The chat would render a function or object where a text was expected. | The user types "toString" or "__proto__" | Only the table's own questions get a scripted answer, and every other query gets the fallback text | not executed | PackyChat.InheritedReplyAsWritten | PackyChat.Reply |
