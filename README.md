# Portfolio site: component logic in Dafny

This project models the logic inside the components of a personal portfolio
website (a Next.js/React application). Nearly all of that site is markup and
styling. What remains is a set of small state machines and pure helpers, each
modelled here and proved against a specification:

- **Home** (`home.dfy`): the hero section's typing effect. Four state
  variables cycle through a fixed word list. Each tick types one character,
  erases one, or wraps to the next word. A separate pause timer switches from
  typing to erasing. The pure step `Tick` is the specification. The class
  `TypingEffect` updates its fields in place and is proved against it. The
  invariant is that the shown text is always the prefix of the current word
  that `charIndex` has reached, whatever order the two timers fire in.
- **Comments** (`comments.dfy`): the comment board. It covers:
  - `String.prototype.trim` and the form's whitespace guard;
  - the image check (size cap first, then the MIME prefix);
  - the form's reset after an accepted submit;
  - the board's local prepend of a new, unpinned entry, split at the
    simulated delay into `BeginSubmit` and `FinishSubmit`;
  - the header count, which equals the number of comment cards rendered.
- **Portfolio** (`portfolio.dfy`): the project and certificate lists. It
  covers the collapsed or expanded prefix views, the two independent
  show-more toggles, the cache hydration on mount, and how a fetch result is
  applied to the lists and the cache.
- **About** (`about.dfy`): whole years of experience since 12 February 2024.
  The result is proved to be the unique `k` whose `k`-th anniversary has been
  reached while the next has not. Also the cached list counts and the order
  of the stats cards.
- **ProjectDetails** (`projectdetails.dfy`): it covers:
  - the route parameter;
  - the lookup of the first stored project whose id, rendered as a string,
    equals the route id;
  - the defaults filled in for missing fields;
  - the "Private" GitHub guard;
  - the technology icon lookup with its fallback, and the stats counts.
  
  It also proves that the details link of a card (`CardProject`) leads the
  page to that card's project.
- **CardProject** (`cardproject.dfy`): the truthiness gates on `link` and
  `id`, their click guards, and the `/project/{id}` link.
- **WelcomeScreen** (`welcome.dfy`): the typewriter interval. `Typewriter`
  is a class with a tick method. `Frames` runs the interval loop to its end
  and returns every value the display takes.
- **SocialLinks** (`sociallinks.dfy`): the primary link found with `find`,
  the other links kept by `filter` in their order, and the positional binding
  of those links to the four tiles.
- `common.dfy` holds the shared pieces: optional values, JavaScript
  truthiness, `String(id)` for numeric and string ids, and the project
  record.

The comment board loads fixture data on mount and prepends new comments
locally; it makes no store calls and has no error path. A second submit
while one is in progress is blocked only by the disabled submit button,
which `Board.SubmitForm` models.

## Model

| member | source | states |
|---|---|---|
| `Home.DropLast` | app/components/Home.tsx:246 | `slice(0, -1)` removes exactly the last character, and leaves the empty string empty |
| `Home.Tick` | app/components/Home.tsx:236-253 | for any word list, one step keeps `wordIndex` in range and preserves the invariant `text == words[wordIndex][..charIndex]`, `charIndex` between 0 and the word's length; at the end of a word in typing mode it changes nothing |
| `Home.PauseElapsed` | app/components/Home.tsx:242 | the pause timer only turns typing off and keeps the text and both indices |
| `Home.TickDelay` | app/components/Home.tsx:255-256 | the tick delay is `TYPING_SPEED` (100) while typing and `ERASING_SPEED` (50) while erasing |
| `Home.RunPreservesInv` | app/components/Home.tsx:208-253 | for any non-empty word list, every interleaving of tick and pause events from `("", 0, 0, typing)` reaches only states satisfying the invariant |
| `Home.TypesPrefix` | app/components/Home.tsx:237-240 | from the start of a word, `k` ticks show exactly its first `k` characters with `charIndex == k` |
| `Home.ErasesSuffix` | app/components/Home.tsx:245-247 | while erasing, `k` ticks remove exactly the last `k` characters and lower `charIndex` by `k` |
| `Home.WordCycle` | app/components/Home.tsx:236-253 | typing a whole word, the no-op tick at its end, the pause, erasing it and one more tick lead to the start of the next word, `wordIndex + 1` modulo the number of words |
| `Home.TypingEffect.constructor` | app/components/Home.tsx:208-211 | the effect runs on `WORDS`; the initial state is `("", 0, 0, typing)` and satisfies the invariant |
| `Home.TypingEffect.HandleTyping` | app/components/Home.tsx:236-253 | the new state is `Tick` of the old; a typing step appends `WORDS[wordIndex][charIndex]` and increments `charIndex`; an erasing step drops the last character and decrements it; at `charIndex = 0` it wraps the word and returns to typing; it reports when the pause is scheduled |
| `Home.TypingEffect.EndPause` | app/components/Home.tsx:242 | the pause timer sets `isTyping` false and nothing else, keeping the invariant |
| `Home.TypingEffect.NextDelay` | app/components/Home.tsx:256 | the delay chosen for the next tick follows `isTyping` |
| `Comments.Trim` | app/components/Comments.tsx:157 | `s.trim()` is no longer than `s`, and a non-empty result neither starts nor ends with whitespace |
| `Comments.TrimIsEndOfStart` | app/components/Comments.tsx:157 | trimming is dropping the leading whitespace and then the trailing whitespace |
| `Comments.TrimIsSlice` | app/components/Comments.tsx:157 | the trimmed string is the slice of `s` that starts right after its leading whitespace |
| `Comments.TrimDropsTrailingWhitespace` | app/components/Comments.tsx:157 | everything after that slice is whitespace |
| `Comments.TrimEmptyIffAllWhitespace` | app/components/Comments.tsx:157 | `s.trim()` is empty exactly when every character of `s` is ECMAScript whitespace or a line terminator |
| `Comments.FormAccepts` | app/components/Comments.tsx:157 | the submit guard holds exactly when both the message and the name contain a non-whitespace character |
| `Comments.CheckImage` | app/components/Comments.tsx:119-135 | no file: nothing; over 5·1024·1024 bytes: rejected for size, whatever its type; otherwise a type not starting with `image/` is rejected; only a file passing both checks is accepted |
| `Comments.Utf16Length` | app/components/Comments.tsx:183 | the length `maxLength` counts: one UTF-16 code unit per character of the Basic Multilingual Plane, two for any other, so between the number of characters and twice that |
| `Comments.CommentForm.constructor` | app/components/Comments.tsx:110-113 | all four form fields start empty, within both length limits |
| `Comments.CommentForm.SetUserName` | app/components/Comments.tsx:180-184 | a value of at most 15 UTF-16 code units, as the input's `maxLength` lets through, becomes the name as it is; the other fields are unchanged and both limits still hold |
| `Comments.CommentForm.SetNewComment` | app/components/Comments.tsx:143-144 | a value of at most 200 UTF-16 code units, as the textarea's `maxLength` (line 201) lets through, becomes the message as it is; the other fields are unchanged and both limits still hold |
| `Comments.CommentForm.HandleImageChange` | app/components/Comments.tsx:119-135 | only an accepted file becomes the selected file; a rejected one leaves the form unchanged |
| `Comments.CommentForm.PreviewLoaded` | app/components/Comments.tsx:137-139 | the file reader's result becomes the preview |
| `Comments.CommentForm.RemovePhoto` | app/components/Comments.tsx:230-233 | removing the photo clears the preview and the file and keeps the text |
| `Comments.CommentForm.HandleSubmit` | app/components/Comments.tsx:153-170 | a rejected submit sends nothing and changes nothing; an accepted one sends the untrimmed message, name and file, then clears message, name, preview and file |
| `Comments.NewEntry` | app/components/Comments.tsx:325-334 | the new entry carries the given name and message, is not pinned, and has an image exactly when a file was supplied |
| `Comments.Render` | app/components/Comments.tsx:384-403 | the list has one row for a pinned comment plus one per feed entry, or the notice row when the feed is empty; the pinned card is first and the notice last |
| `Comments.RenderedCardCount` | app/components/Comments.tsx:384-403 | the rendered list holds as many comment cards as the feed has entries, plus one for a pinned comment |
| `Comments.TotalComments` | app/components/Comments.tsx:351 | the header count equals the number of comment cards rendered |
| `Comments.RenderLayout` | app/components/Comments.tsx:384-403 | the pinned comment renders first, the feed follows in order, and the "No comments yet" notice appears exactly when the feed is empty, whether or not a comment is pinned |
| `Comments.SubmitShowsEntryFirst` | app/components/Comments.tsx:336 | after a submit the new entry is the first card after the pinned one, every earlier card follows in its order, and the count rises by one |
| `Comments.Board.constructor` | app/components/Comments.tsx:303-306 | the board starts with no pinned comment, an empty feed, not submitting and no error |
| `Comments.Board.SubmitDisabled` | app/components/Comments.tsx:274 | the submit button is disabled exactly while a submission is in progress |
| `Comments.Board.Load` | app/components/Comments.tsx:313-316 | the mount effect installs the pinned comment and the feed |
| `Comments.Board.BeginSubmit` | app/components/Comments.tsx:320-321 | a submission clears the error and sets `isSubmitting`, which disables the submit button |
| `Comments.Board.FinishSubmit` | app/components/Comments.tsx:325-337 | exactly one new entry is prepended, every earlier entry follows in order, and `isSubmitting` is cleared |
| `Comments.Board.SubmitForm` | app/components/Comments.tsx:272-274 | while the button is disabled a submit event changes neither the board nor the form; otherwise the form validates: a rejected submit changes nothing, and an accepted one sends the untrimmed fields, clears the form and starts the submission |
| `Portfolio.InitialItems` | app/components/Portfolio.tsx:147-153 | a collapsed list shows 4 items when the viewport is narrower than 768 pixels and 6 otherwise |
| `Portfolio.Take` | app/components/Portfolio.tsx:205-206 | `slice(0, n)` gives the first `min(length, n)` items in order |
| `Portfolio.Displayed` | app/components/Portfolio.tsx:205-206 | an expanded list shows every item; a collapsed one shows the first `min(n, initialItems)` items in order |
| `Portfolio.ToggleVisible` | app/components/Portfolio.tsx:300-304 | the toggle button under a list appears exactly when the collapsed and expanded views differ; the collapsed view then holds exactly `initialItems` of a longer list |
| `Portfolio.ToggleLabel` | app/components/Portfolio.tsx:63 | the caption reads "See Less" exactly when the list is expanded and "See More" exactly when it is collapsed |
| `Portfolio.Toggled` | app/components/Portfolio.tsx:197-203 | toggling projects flips only `showAllProjects`; toggling certificates flips only `showAllCertificates` |
| `Portfolio.ToggleInvolutive` | app/components/Portfolio.tsx:197-203 | toggling a list twice restores the flags, and toggles of the two lists commute |
| `Portfolio.Hydrate` | app/components/Portfolio.tsx:182-189 | the cached lists are loaded on mount only when both cache entries exist |
| `Portfolio.DataOrEmpty` | app/components/Portfolio.tsx:169-170 | missing response data counts as an empty list |
| `Portfolio.FetchOutcome` | app/components/Portfolio.tsx:159-179 | an error in either response yields nothing; otherwise both lists, missing data as empty |
| `Portfolio.FetchThenHydrate` | app/components/Portfolio.tsx:175-189 | what a successful fetch writes to the cache is what the next mount reads back |
| `Portfolio.Showcase.constructor` | app/components/Portfolio.tsx:119-192 | on mount both lists are collapsed, the collapsed size follows the width, and the cached lists are installed only when both are present |
| `Portfolio.Showcase.DisplayedProjects` | app/components/Portfolio.tsx:205 | the displayed projects are a prefix of the projects |
| `Portfolio.Showcase.DisplayedCertificates` | app/components/Portfolio.tsx:206 | the displayed certificates are a prefix of the certificates |
| `Portfolio.Showcase.ToggleShowMore` | app/components/Portfolio.tsx:197-203 | the flags become `Toggled` of the old flags; lists, size and cache unchanged |
| `Portfolio.Showcase.ApplyFetch` | app/components/Portfolio.tsx:159-180 | an error changes neither list nor cache; success replaces both lists and writes the same data to the cache |
| `About.Before` | app/components/About.tsx:238 | `today < new Date(...)` on calendar dates: the year decides, then the month, then the day; no date is before itself |
| `About.YearsOfExperience` | app/components/About.tsx:235-238 | the figure `k` is such that the `k`-th anniversary of 2024-02-12 has been reached and the `(k+1)`-th has not |
| `About.YearsAreCompleteYears` | app/components/About.tsx:237-238 | that `k` is unique: the figure is the number of complete years elapsed |
| `About.AnniversaryDayCounts` | app/components/About.tsx:238 | on the anniversary day itself the year counts, and the day before it does not |
| `About.YearsMonotone` | app/components/About.tsx:237-238 | the figure never decreases as the date advances, and is not negative from the start date on |
| `About.StatsData` | app/components/About.tsx:232-257 | the stats are projects, certificates and experience, in that order; each total is the cached list's length, 0 when the cache key is absent; the experience figure is the number of complete years |
| `Common.IdString` | app/components/ProjectDetails.tsx:167 | `String(id)` of a string id is the string itself; of a numeric id, a decimal form whose value is the number |
| `Common.IdText` | app/components/CardProject.tsx:97 | `String(undefined)` is "undefined", otherwise `String(id)`; the text "undefined" arises only from a missing id or the string id "undefined" |
| `Common.LengthOrZero` | app/components/ProjectDetails.tsx:101-102 | the count of a list that may be missing is its length, or 0 when it is missing |
| `Common.IntToString` | app/components/ProjectDetails.tsx:167 | `String(n)` is an optional minus sign followed by digits, the sign present exactly for negatives, and its decimal value is `n` |
| `Common.NatToStringValue` | app/components/ProjectDetails.tsx:167 | the decimal value of the digits written for a natural number is that number |
| `Common.IntToStringInjective` | app/components/ProjectDetails.tsx:167 | two integers render to the same string exactly when they are equal |
| `ProjectDetails.RouteParam` | app/components/ProjectDetails.tsx:155-157 | a route parameter is the non-empty, slash-free segment after `/project/` |
| `ProjectDetails.MatchesRoute` | app/components/ProjectDetails.tsx:167 | a project with a string id matches exactly that route id; a numeric id matches only a route id whose decimal value is that number; a missing id matches only "undefined" |
| `ProjectDetails.FindIndex` | app/components/ProjectDetails.tsx:167 | `find` stops at the first stored project whose `String(id)` equals the route id, or finds none when no project matches |
| `ProjectDetails.Normalise` | app/components/ProjectDetails.tsx:170-175 | every stored field is kept; missing `Features` and `TechStack` become `[]`; a missing or empty `Github` becomes the owner's profile URL |
| `ProjectDetails.NormaliseIdempotent` | app/components/ProjectDetails.tsx:170-175 | normalising twice equals normalising once, and a normalised project has both lists and a truthy `Github` |
| `ProjectDetails.LoadProject` | app/components/ProjectDetails.tsx:163-190 | an empty route id loads nothing, so the loading view stays; otherwise a project loads exactly when one matches, and it is the first match, normalised |
| `ProjectDetails.GithubClickAllowed` | app/components/ProjectDetails.tsx:136-151 | the click is allowed exactly when the link is not `"Private"` |
| `ProjectDetails.DefaultGithubIsFollowed` | app/components/ProjectDetails.tsx:136-175 | the default link filled in by normalisation is never blocked |
| `ProjectDetails.GithubHrefAsWritten` | app/components/ProjectDetails.tsx:280-283 | the anchor as written links to the stored `github` key, whatever normalisation put under `Github` |
| `ProjectDetails.GithubHref` | app/components/ProjectDetails.tsx:170-175 | the anchor reading `Github` always has a truthy target: the stored non-empty link, or else the owner's profile, which the click guard allows |
| `ProjectDetails.DefaultGithubNeverReachesAnchor` | app/components/ProjectDetails.tsx:279-283 | for a stored project with no GitHub link, the anchor as written has no target, although normalisation filled in a default |
| `ProjectDetails.LoadedProjectHasGithubTarget` | app/components/ProjectDetails.tsx:170-175 | the loaded project's `Github` is the corrected anchor of the stored project the lookup found, so every loaded project has a truthy GitHub target, and the default one is never blocked |
| `ProjectDetails.IconFor` | app/components/ProjectDetails.tsx:13-29 | a known technology name gets its mapped icon, and any other name gets the default package icon |
| `ProjectDetails.IsImage` | app/components/ProjectDetails.tsx:29-30 | a badge icon renders as an image exactly when it is not the default package icon |
| `ProjectDetails.BadgeImageIffKnown` | app/components/ProjectDetails.tsx:29-46 | a badge renders an image exactly for the ten named technologies |
| `ProjectDetails.StatsCounts` | app/components/ProjectDetails.tsx:100-102 | the stats show the `TechStack` and `Features` lengths, 0 for a missing list or project |
| `ProjectDetails.CardLinkFindsProject` | app/components/ProjectDetails.tsx:163-175 | a card with a truthy id renders a details link, and the router's parameter for it is `String(id)`; if no earlier project renders to the same string, the page loads that card's project, normalised |
| `ProjectDetails.NumericIdHasNoSlash` | app/components/CardProject.tsx:97 | a numeric id's string has no slash, so its details link is a single route segment |
| `ProjectDetails.NumericIdsMatchOnlyTheirProject` | app/components/ProjectDetails.tsx:167 | when the earlier projects have other numeric ids or none, none of them matches the string of a card's numeric id |
| `ProjectDetails.NumericCardLinkFindsProject` | app/components/ProjectDetails.tsx:163-175 | a card with a non-zero numeric id, different from the numeric ids before it, links to `/project/<id>`, and the page loads that card's project, normalised |
| `CardProject.DetailsHref` | app/components/CardProject.tsx:97 | the details link is `/project/` followed by `String(id)` |
| `CardProject.RenderDemo` | app/components/CardProject.tsx:80-93 | the live-demo anchor to `link` is rendered exactly when `link` is truthy; otherwise "Demo Not Available" |
| `CardProject.RenderDetails` | app/components/CardProject.tsx:95-118 | the details link is rendered exactly when `id` is truthy; otherwise "Details Not Available" |
| `CardProject.LiveDemoPrevented` | app/components/CardProject.tsx:23-28 | `handleLiveDemo` prevents navigation exactly when `link` is falsy, missing or empty, which is exactly when no live-demo anchor is rendered |
| `CardProject.DetailsPrevented` | app/components/CardProject.tsx:30-35 | `handleDetails` prevents navigation exactly when `id` is falsy, missing, 0 or empty, which is exactly when no details link is rendered |
| `CardProject.RenderedLinksAreNotBlocked` | app/components/CardProject.tsx:23-35 | each click guard blocks navigation exactly when its link is not rendered; an empty link and an id of 0 count as missing |
| `WelcomeScreen.Typewriter.constructor` | app/components/WelcomeScreen.tsx:14-17 | the display starts empty with the counter at 0 and the interval running |
| `WelcomeScreen.Typewriter.Tick` | app/components/WelcomeScreen.tsx:18-24 | while `index` is at most the text length, a tick displays `text[..index]` and increments `index`; after that it stops the interval without changing the display; the displayed length never decreases |
| `WelcomeScreen.Frames` | app/components/WelcomeScreen.tsx:16-28 | the display takes the values `text[..0]`, `text[..1]`, and so on up to the full text, and the last tick stops the interval showing the full text; lengths never decrease |
| `SocialLinks.PrimaryIndex` | app/components/SocialLinks.tsx:89 | the search stops at the first entry with `isPrimary`, or finds none |
| `SocialLinks.FindPrimary` | app/components/SocialLinks.tsx:89 | the primary link is the first primary entry, and is absent exactly when no entry is primary |
| `SocialLinks.OtherLinks` | app/components/SocialLinks.tsx:90 | the other links are all non-primary and no more than the entries |
| `SocialLinks.OtherLinksMembers` | app/components/SocialLinks.tsx:90 | an entry is among the other links exactly when it is in the list and not primary |
| `SocialLinks.OtherLinksKeepOrder` | app/components/SocialLinks.tsx:90 | filtering distributes over concatenation, so the other links keep their original order |
| `SocialLinks.PartitionIsExact` | app/components/SocialLinks.tsx:89-90 | with exactly one primary entry at position `k`, the primary link is `links[k]` and the other links are `links[..k] + links[k+1..]`: every entry appears exactly once, and the order is kept |
| `SocialLinks.At` | app/components/SocialLinks.tsx:91 | positional destructuring binds the element at a position, or `undefined` past the end |
| `SocialLinks.RenderPanel` | app/components/SocialLinks.tsx:88-237 | nothing is rendered without a primary entry; with one, fewer than four other links make rendering fail, because a tile reads `name` and `url` of `undefined`; otherwise the first four other links are bound, in order, to instagram, youtube, github and tiktok |
| `SocialLinks.PanelOfFive` | app/components/SocialLinks.tsx:88-91 | for five entries of which only the first is primary, the panel shows the first on its own row and binds the other four to the tiles in order |
| `SocialLinks.PanelBindsByName` | app/components/SocialLinks.tsx:14-91 | with the panel's own list, LinkedIn is primary and the tiles are bound to Instagram, YouTube, GitHub and TikTok by name |

## Findings

| source | as written | input that shows it | evidently intended | confidence | as-written member | corrected member |
|---|---|---|---|---|---|---|
| app/components/ProjectDetails.tsx:280-283 | normalisation (line 174) writes the default link under `Github`; the anchor's `href` and its click guard read `project.github` | a stored project with neither `Github` nor `github`: the anchor's `href` is `undefined` | the anchor reads the normalised `Github`, so a project without a link points to the owner's profile | medium, not executed (the stored data could carry both keys) | `ProjectDetails.DefaultGithubNeverReachesAnchor` | `ProjectDetails.LoadedProjectHasGithubTarget` |

## Left out

- Presentation is not modelled: themes and class names, AOS, framer-motion, Lottie, MUI tabs and swipe views, the tab index, modals, the background animation (floating point tied to animation frames), `ThemedGradient`, `TechStackIcon`, `Footer` and the page layout.
- Time is not modelled: the 100/50 ms tick delays, the 2000 ms pause, the 800 ms submit delay and the 260 ms welcome interval. Each timer firing is a discrete event or method call. Timer cleanup on unmount is not modelled either.
- `Home.Tick`: the model lets the pause event fire in any state, which is more than the code does (it schedules the pause only at the end of a typed word). The invariant is proved for every such order.
- Backend and storage I/O are not modelled. The two fetch responses are `Response` values; a rejected request is treated like an error response, since both end in the same `catch`. Browser storage is the `Cache` value, and `JSON.stringify`/`JSON.parse` are taken to round-trip exactly.
- Browser and library APIs are not modelled. `FileReader` previews, `URL.createObjectURL`, `alert` and the `Swal` dialog appear only as parameters or are dropped. `toLocaleDateString` date formatting is not modelled.
- `Date.now()` ids and `toISOString()` timestamps of new comments are parameters of `Comments.NewEntry`. Nothing is claimed about their uniqueness or order.
- `About.YearsOfExperience`: dates are integer (year, month, day) triples and timezones are left out. In the code the start date is parsed as UTC midnight and read with local getters, so west of UTC it reads as 11 February. Also, `new Date(y, m, d)` maps years 0 to 99 to the 1900s; this is not modelled.
- The store client is not part of the code: its imports are commented out (app/components/Comments.tsx:5 and :10), and the board loads fixtures instead.
- `ProjectDetails.RouteParam`: query strings, fragments and percent-decoding of the route segment are not modelled.
- `ProjectDetails.IconFor`: names that are inherited object properties in JavaScript (`toString`, `constructor`) would return a prototype function. The model treats them as unknown names.
- Ids are integers or strings. Non-integer numeric ids and `NaN` are not modelled.
- `Common.IntToString`: JavaScript's `String(n)` switches to exponent form (`1e+21`) once the magnitude reaches 10^21; the model always writes plain decimal digits.
- `Common.IdText`: a `null` id renders as "null" in JavaScript; the model has no null and treats it like a missing id ("undefined").
- `ProjectDetails.MatchesRoute`: for a numeric id the contract states only that a match implies the route id's decimal value is that number, not which of the forms with that value (leading zeros, "-0") match; that the canonical form matches follows from `Common.IntToString`.
- `Comments.CommentForm.SetUserName`, `Comments.CommentForm.SetNewComment`: the browser enforces `maxLength` before the handlers run. The model takes the value the browser hands over, within the limit counted in UTF-16 code units, and does not model how the browser refuses or truncates typed or pasted text.
- `Home.Tick`, `Home.DropLast`: indexing, `length` and `slice(0, -1)` count UTF-16 code units while the model counts characters; the two agree on the four ASCII words the effect types.
- `WelcomeScreen.Typewriter`: `length` and `slice` count UTF-16 code units while the model counts characters; the two agree on the only text the screen types, the ASCII "www.jn.portfolio" (app/components/WelcomeScreen.tsx:203).
- The fixture file writes its project fields with capitals (`Img`, `Title`, `Link`), while the card reads `img`, `title` and `link`. The model uses the keys the components read.
- `isMobile` starts `false` (app/components/Portfolio.tsx:125), so the very first render shows 6 items until the mount effect (lines 147-151) reads the viewport width. `Portfolio.Showcase.constructor` gives the state after that effect. The width is read once; the code has no resize handling, and neither does the model.
- The submit button's disabled state is modelled as blocking the submit event (`Comments.Board.SubmitForm`). The browser's handling of implicit submission is not modelled beyond that.
