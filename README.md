# Slider-puzzle captcha and shopping cart, modelled in Dafny

This project models the two stateful parts of a React demo application:

- **The timelapse captcha widget** (`TimelapseCaptcha`). A random horizontal target (the puzzle
  hole) is drawn inside a 20-pixel inset of a 400×300 container. The vertical position is fixed
  at 110. The user drags a slider with the mouse or a finger. The pointer position is clamped to
  the track and turned into a percentage, which moves an 80-pixel piece linearly across the free
  width. On release, a piece within the difficulty's tolerance (easy 25, medium 15, hard 8, any
  other name 15) is snapped onto the target and, after a delay, verified automatically. The
  verify button verifies by hand. Success sets a sticky "verified" flag and reports
  `onVerify(true)`. Failure reports `onVerify(false, 'Verification failed')`, but only for a
  manual attempt, and fetches a new puzzle.
- **The shop's cart** (`OnlineShop`). `addToCart`, `removeFromCart` and `getTotalPrice` work on a
  list of cart lines.

Files:

- `wrappers.dfy`: `Option`.
- `slider.dfy` (module `Slider`): the pure arithmetic of the widget. This covers the tolerance
  table, the challenge range, the clamp and percentage, the percentage-to-offset mapping, the
  snap percentage and `parseInt` of the piece offset (truncation toward zero).
- `captcha.dfy` (module `CaptchaWidget`): class `Captcha`. Its fields are the component's state
  and refs (`isLoading`, `isVerified`, `sliderPosition`, `pieceLeft`, `correctPosition`,
  `isDragging`) plus three more: the set of attached document listeners, the queue of pending
  challenge requests and the number of pending auto-verifications. A ghost log records every
  `onVerify`/`onError` call. `Valid()` is the invariant every event keeps:
  - while loading, the piece reads as offset 0;
  - the puzzle is only shown once a challenge exists;
  - every challenge is in bounds;
  - the slider stays in [0, 100];
  - dragging implies some listener is attached;
  - `isVerified` holds exactly when `onVerify(true)` has been reported.

  Two client methods, `AutoVerifyScenario` and `ManualFailureScenario`, walk the widget through
  a successful automatic verification and a failed manual one.
- `shop.dfy` (module `Shop`): the cart as functions over `seq<CartItem>`, with prices in integer
  cents, and lemmas about ids, order and totals.

Time and randomness are inputs. The 500 ms challenge issuance is the event `CompleteIssue`, which
takes the random number, or `None` for a failed issuance. The 300 ms auto-verify delay is the
event `FireAutoVerify`. All issuance timers have the same delay, so they complete in request
order, and the model keeps them as a FIFO queue. Track position and width, and the free width
`maxX` (container width minus piece width, as measured from the DOM), are parameters.

Behaviour of the component worth knowing:

- there is no challenge token, no anti-replay check, no unmount cancellation and no discarding
  of stale completions;
- "New Puzzle" does not reset `isVerified` or the slider position, and it does not end a drag in
  progress;
- `onVerify(true)` can be reported more than once: the track stays draggable after success, and
  a second close release schedules another auto-verification;
- a pending auto-verification verifies whatever the piece offset is when it fires. The offset
  reads as 0 while a new puzzle is loading.

## Model

| member | source | states |
|---|---|---|
| `Slider.Tolerance` | src/components/TimelapseCaptcha.jsx:198-205 | result is one of 8, 15, 25; 25 exactly for "easy", 8 exactly for "hard", 15 for every other name |
| `Slider.ToleranceOrdering` | src/components/TimelapseCaptcha.jsx:198-205 | easy 25 > medium 15 > hard 8, and an unrecognised difficulty behaves as medium |
| `Slider.GenerateChallenge` | src/components/TimelapseCaptcha.jsx:47-57 | for r in [0,1) the target satisfies 20 ≤ x ≤ 299 and y = (300−80)/2 = 110 |
| `Slider.GenerateChallengeCovers` | src/components/TimelapseCaptcha.jsx:57 | every x in [20, 299] is produced by some r in [0,1), so the bounds above are tight |
| `Slider.Clamp` | src/components/TimelapseCaptcha.jsx:101 | result lies in [lo, hi], equals v inside the range, and equals the nearer bound outside it |
| `Slider.SliderPercentage` | src/components/TimelapseCaptcha.jsx:99-103 | for any pointer coordinate the percentage is in [0,100]; 0 left of the track, 100 right of it, proportional to the distance into the track inside it |
| `Slider.SliderPercentageMonotone` | src/components/TimelapseCaptcha.jsx:150-154 | a pointer further right never yields a smaller percentage |
| `Slider.PieceOffset` | src/components/TimelapseCaptcha.jsx:76-86 | a percentage in [0,100] maps into [0, maxX]; 0 maps to 0 and 100 to maxX |
| `Slider.SnapPercentage` | src/components/TimelapseCaptcha.jsx:126 | a target in [0, 320] snaps to a percentage in [0,100] |
| `Slider.SnapLandsOnTarget` | src/components/TimelapseCaptcha.jsx:126-128 | the snapped piece offset is x·maxX/320, exactly x when maxX = 320 |
| `Slider.Trunc` | src/components/TimelapseCaptcha.jsx:120 | parseInt of the offset truncates toward zero: the integer is within 1 of the value, on the same side of 0, never farther from 0 |
| `Slider.TruncOfInteger` | src/components/TimelapseCaptcha.jsx:169 | an integral offset reads back as itself |
| `Slider.TargetX` | src/components/TimelapseCaptcha.jsx:171 | the challenge's x when there is an in-bounds challenge (or any non-zero x), 150 when there is none or its x is the falsy 0 |
| `Slider.WithinToleranceMeaning` | src/components/TimelapseCaptcha.jsx:173 | pass iff abs(trunc(offset) − target) ≤ tolerance; a larger tolerance accepts everything a smaller one does |
| `Slider.Abs` | src/components/TimelapseCaptcha.jsx:124 | Math.abs: the result is n or −n and never negative |
| `Slider.SnappedPiecePasses` | src/components/TimelapseCaptcha.jsx:124-133 | after the snap with maxX = 320, the pending auto-verification passes at any tolerance |
| `Slider.PlacedPiecePasses` | src/components/TimelapseCaptcha.jsx:180-181 | a piece placed on the target by a successful verify passes again |
| `Slider.ToleranceScenarios` | src/components/TimelapseCaptcha.jsx:167-173 | target 150 and piece 160 pass on medium and fail on hard; a pointer at 110 % of the track gives 100 |
| `CaptchaWidget.Captcha.constructor` | src/components/TimelapseCaptcha.jsx:5-24 | mount: loading, not verified, slider and piece at 0, no challenge, no listeners, one pending initialisation, nothing reported |
| `CaptchaWidget.Captcha.BeginInit` | src/components/TimelapseCaptcha.jsx:26-31 | loading starts, the piece reads 0, and one request is queued; all else unchanged |
| `CaptchaWidget.Captcha.CompleteIssue` | src/components/TimelapseCaptcha.jsx:31-44 | success installs GenerateChallenge(r), puts the piece at 0 and ends loading; failure reports onError('Failed to initialize CAPTCHA') and leaves loading as it was; a request from a failed verify resets the slider to 0 |
| `CaptchaWidget.Captcha.Refresh` | src/components/TimelapseCaptcha.jsx:286-290 | New Puzzle: loading with the piece at 0 and a request queued; isVerified and the slider unchanged |
| `CaptchaWidget.Captcha.Press` | src/components/TimelapseCaptcha.jsx:89-94 | dragging starts and that pointer's move and release listeners are attached (mouse, or touch as at :138-143) |
| `CaptchaWidget.Captcha.Move` | src/components/TimelapseCaptcha.jsx:96-106 | changes nothing unless that pointer's move listener is attached, dragging is on and the puzzle is shown; otherwise slider = SliderPercentage and piece = PieceOffset(slider, maxX) |
| `CaptchaWidget.Captcha.AutoVerifyIfClose` | src/components/TimelapseCaptcha.jsx:117-135 | when the puzzle is shown and abs(trunc(piece) − x) ≤ tolerance: snap slider and piece and schedule one auto-verification; otherwise nothing changes |
| `CaptchaWidget.Captcha.Release` | src/components/TimelapseCaptcha.jsx:108-115 | with that pointer's listeners attached: dragging off, those listeners detached, then the auto-verify check; otherwise nothing changes (touch as at :159-165) |
| `CaptchaWidget.Captcha.Verify` | src/components/TimelapseCaptcha.jsx:167-196 | pass iff abs(trunc(piece) − TargetX) ≤ tolerance; pass: verified, onVerify(true) appended once, piece on the target when shown; miss: onVerify(false,'Verification failed') appended only when not automatic, isVerified unchanged, loading with the piece at 0 and a request queued that resets the slider |
| `CaptchaWidget.Captcha.ClickVerify` | src/components/TimelapseCaptcha.jsx:277-284 | the button, enabled only while shown and not verified; a pass verifies, reports onVerify(true), puts the piece on the target and requests no new puzzle; a miss always reports onVerify(false,'Verification failed') and requests a new puzzle |
| `CaptchaWidget.Captcha.FireAutoVerify` | src/components/TimelapseCaptcha.jsx:131-133 | one scheduled auto-verification runs handleVerify(true); a miss reports nothing |
| `Shop.Find` | src/components/OnlineShop.jsx:41 | finds a line iff some line has the id; the line found has the id, is in the cart, and no earlier line has the id |
| `Shop.IncrementQuantity` | src/components/OnlineShop.jsx:43-47 | same length; each line with the id gets quantity + 1, every other line is unchanged |
| `Shop.AddToCart` | src/components/OnlineShop.jsx:39-51 | the length grows by one exactly when the id was absent |
| `Shop.AddNewAppends` | src/components/OnlineShop.jsx:49 | an absent id: the result is the cart followed by {product, quantity 1}, earlier lines unchanged |
| `Shop.AddExistingIncrements` | src/components/OnlineShop.jsx:41-47 | a present id (ids distinct): that line's quantity + 1, the length and all other lines unchanged |
| `Shop.RemoveFromCart` | src/components/OnlineShop.jsx:53-55 | no line with the id remains; the result is a subsequence (original order) dropping exactly the lines with the id; an absent id leaves the cart unchanged |
| `Shop.TotalPrice` | src/components/OnlineShop.jsx:57-59 | the reduce equals the sum of price·quantity over the cart; the empty cart totals 0 |
| `Shop.AccumulateIsSum` | src/components/OnlineShop.jsx:58 | a left-to-right reduce from any accumulator equals the accumulator plus the sum |
| `Shop.AddKeepsUniqueIds` | src/components/OnlineShop.jsx:41-49 | adding keeps ids pairwise distinct |
| `Shop.RemoveKeepsUniqueIds` | src/components/OnlineShop.jsx:54 | removing keeps ids pairwise distinct |
| `Shop.ReplayKeepsUniqueIds` | src/components/OnlineShop.jsx:39-55 | ids stay pairwise distinct under any sequence of adds and removes |
| `Shop.ReachableCartsHaveUniqueIds` | src/components/OnlineShop.jsx:5 | every cart reachable from the initial empty cart has distinct ids |
| `Shop.AddToCartTotal` | src/components/OnlineShop.jsx:39-50 | adding raises the total by one unit's price: the product's for a new line, the line's recorded price for an existing one |
| `Shop.AddToCartTotalCatalogue` | src/components/OnlineShop.jsx:57-59 | when recorded prices match the product, adding p raises the total by exactly p.price |
| `Shop.AddKeepsPricesMatch` | src/components/OnlineShop.jsx:39-50 | adding a catalogue product keeps every line's recorded price equal to the catalogue price of its id |
| `Shop.RemoveKeepsPricesMatch` | src/components/OnlineShop.jsx:53-55 | removing keeps every line's recorded price equal to the catalogue price of its id |
| `Shop.ReplayKeepsPricesMatch` | src/components/OnlineShop.jsx:39-55 | recorded prices stay the catalogue's under any sequence of catalogue adds and removes |
| `Shop.ReachableAddTotal` | src/components/OnlineShop.jsx:8-59 | for every cart built from the empty cart with catalogue products, adding a catalogue product p raises the total by exactly p.price |
| `Shop.RemoveFromCartTotal` | src/components/OnlineShop.jsx:53-59 | removing id k lowers the total by price·quantity of the line with k, or by 0 when none has it |
| `Shop.CartScenario` | src/components/OnlineShop.jsx:39-59 | two adds of one product and one of another give quantities 2 and 1 and their total; removing the first leaves the second |

## Left out

- JSX rendering, CSS, the loading spinner markup and video playback (`startVideos`): presentation only. The video refs are never attached in the markup, so `startVideos` does nothing.
- `getBoundingClientRect` and `offsetWidth`: the track's left edge and width and the free width `maxX` are parameters. A positive track width is required, because zero would make the percentage NaN.
- Real time: the 500 ms and 300 ms delays are the explicit events `CompleteIssue` and `FireAutoVerify`. Which pending event fires next is left to the caller.
- Floating-point rounding: offsets and percentages are exact reals. With doubles, rounding enters in the pointer percentage (`newX / width * 100`) and in the piece offset (`percentage / 100 * maxX`) when maxX is not 320. A piece offset printed in exponent notation (below 1e-6) makes `parseInt` read its leading digit.
- `Slider.Trunc`: does not model `parseInt` on exponent-notation strings, because the model has no string form of the offset.
- Exceptions thrown by the embedding application's callbacks (the `catch` that reports 'Verification error'): foreign code. The model's callbacks always return.
- A change of the `difficulty` property after mount (the effect's dependency re-runs initialisation): the difficulty is fixed at construction. Difficulty names that are inherited object properties (such as "constructor") are not modelled.
- The `preventDefault` calls and the `{ passive: false }` listener option: browser event plumbing. Listener registration is modelled as a set, because re-adding the same function is a no-op.
- `TimeBasedBackground`: a floating-point colour animation driven by the wall clock, with no state shared with the captcha.
- `App`: composition, and the mapping of the callback result to a display string.
- Shop catalogue data, images and `toFixed(2)` formatting: presentation. Prices are integer cents rather than floating-point dollars.
