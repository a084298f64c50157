/**
 * The slider-puzzle widget as a state machine over the fields the component
 * keeps in React state and refs. The 500 ms challenge issuance and the 300 ms
 * auto-verify delay are explicit pending steps that the environment fires
 * (CompleteIssue, FireAutoVerify); the callbacks the widget invokes are
 * recorded in a ghost log.
 */
module CaptchaWidget {
  import opened Wrappers
  import opened Slider

  datatype Pointer = Mouse | Touch

  /** A document-level listener: the move listener or the release listener of one pointer kind. */
  datatype Listener = MoveListener(pointer: Pointer) | UpListener(pointer: Pointer)

  /** A callback invocation: onVerify(success, message?) or onError(message). */
  datatype Callback = OnVerify(success: bool, message: Option<string>) | OnError(error: string)

  const VerificationFailed: string := "Verification failed"
  const InitFailed: string := "Failed to initialize CAPTCHA"

  class Captcha {
    /** The difficulty property, fixed for the widget's lifetime. */
    const difficulty: string
    /** Measured container width minus measured piece width (maxX of the offset mapping). */
    const maxX: real

    var isLoading: bool
    var isVerified: bool
    /** Slider handle position, percent. */
    var sliderPosition: real
    /** Numeric value of the piece's style.left, pixels. */
    var pieceLeft: real
    /** The current challenge (correctPositionRef), None before the first one arrives. */
    var correctPosition: Option<Challenge>
    var isDragging: bool
    var listeners: set<Listener>
    /** Initialisations waiting for their challenge, oldest first; true = reset the slider afterwards. */
    var pendingIssues: seq<bool>
    /** Auto-verifications scheduled and not yet run. */
    var pendingAutoVerifies: nat
    /** Callbacks invoked so far, in order. */
    ghost var emitted: seq<Callback>

    ghost predicate Valid()
      reads this
    {
      // While loading the piece element is not rendered, so its offset reads as 0.
      && (isLoading ==> pieceLeft == 0.0)
      // The puzzle is shown only once a challenge has arrived.
      && (!isLoading ==> correctPosition.Some?)
      && (correctPosition.Some? ==> InBounds(correctPosition.value))
      && 0.0 <= sliderPosition <= 100.0
      && (0.0 <= maxX ==> 0.0 <= pieceLeft)
      && (isDragging ==> listeners != {})
      && (MoveListener(Mouse) in listeners <==> UpListener(Mouse) in listeners)
      && (MoveListener(Touch) in listeners <==> UpListener(Touch) in listeners)
      // Verified exactly when a successful verification has been reported.
      && (isVerified <==> OnVerify(true, None) in emitted)
    }

    /** The verify button is disabled once verification has succeeded. */
    predicate VerifyButtonDisabled()
      reads this
    {
      isVerified
    }

    /** Mounting the widget: initial state, then the first initialisation starts. */
    constructor (difficulty: string, maxX: real)
      ensures Valid()
      ensures this.difficulty == difficulty && this.maxX == maxX
      ensures isLoading && !isVerified && !isDragging
      ensures sliderPosition == 0.0 && pieceLeft == 0.0 && correctPosition == None
      ensures listeners == {} && pendingIssues == [false] && pendingAutoVerifies == 0
      ensures emitted == []
    {
      this.difficulty := difficulty;
      this.maxX := maxX;
      isLoading := true;
      isVerified := false;
      sliderPosition := 0.0;
      pieceLeft := 0.0;
      correctPosition := None;
      isDragging := false;
      listeners := {};
      pendingIssues := [false];
      pendingAutoVerifies := 0;
      emitted := [];
    }

    /**
     * The synchronous part of initializeCaptcha: loading starts (the piece is
     * unmounted) and a challenge request is queued.
     */
    method BeginInit(resetSlider: bool)
      requires Valid()
      modifies this
      ensures Valid()
      ensures isLoading && pieceLeft == 0.0
      ensures pendingIssues == old(pendingIssues) + [resetSlider]
      ensures isVerified == old(isVerified) && sliderPosition == old(sliderPosition)
      ensures correctPosition == old(correctPosition) && isDragging == old(isDragging)
      ensures listeners == old(listeners) && pendingAutoVerifies == old(pendingAutoVerifies)
      ensures emitted == old(emitted)
    {
      isLoading := true;
      pieceLeft := 0.0;
      pendingIssues := pendingIssues + [resetSlider];
    }

    /**
     * The oldest pending challenge request completes: with a random number it
     * installs the generated challenge, places the piece at 0 and ends loading;
     * without one it reports an initialisation error and stays loading. A request
     * made by a failed verification then resets the slider to 0.
     */
    method CompleteIssue(random: Option<real>)
      requires Valid() && |pendingIssues| > 0
      requires random.Some? ==> 0.0 <= random.value < 1.0
      modifies this
      ensures Valid()
      ensures pendingIssues == old(pendingIssues)[1..]
      ensures random.Some? ==>
        && correctPosition == Some(GenerateChallenge(random.value))
        && !isLoading && pieceLeft == 0.0 && emitted == old(emitted)
      ensures random.None? ==>
        && correctPosition == old(correctPosition)
        && isLoading == old(isLoading) && pieceLeft == old(pieceLeft)
        && emitted == old(emitted) + [OnError(InitFailed)]
      ensures sliderPosition == if old(pendingIssues)[0] then 0.0 else old(sliderPosition)
      ensures isVerified == old(isVerified) && isDragging == old(isDragging)
      ensures listeners == old(listeners) && pendingAutoVerifies == old(pendingAutoVerifies)
    {
      var resetSlider := pendingIssues[0];
      pendingIssues := pendingIssues[1..];
      match random {
        case Some(r) =>
          correctPosition := Some(GenerateChallenge(r));
          pieceLeft := 0.0;
          isLoading := false;
        case None =>
          emitted := emitted + [OnError(InitFailed)];
      }
      if resetSlider {
        sliderPosition := 0.0;
      }
    }

    /** The "New Puzzle" button: a fresh initialisation that leaves the slider where it is. */
    method Refresh()
      requires Valid() && !isLoading
      modifies this
      ensures Valid()
      ensures isLoading && pieceLeft == 0.0
      ensures pendingIssues == old(pendingIssues) + [false]
      ensures isVerified == old(isVerified) && sliderPosition == old(sliderPosition)
      ensures correctPosition == old(correctPosition) && isDragging == old(isDragging)
      ensures listeners == old(listeners) && pendingAutoVerifies == old(pendingAutoVerifies)
      ensures emitted == old(emitted)
    {
      BeginInit(false);
    }

    /** Mouse down or touch start on the slider track: dragging starts and that pointer's listeners are attached. */
    method Press(pointer: Pointer)
      requires Valid() && !isLoading
      modifies this
      ensures Valid()
      ensures isDragging
      ensures listeners == old(listeners) + {MoveListener(pointer), UpListener(pointer)}
      ensures isLoading == old(isLoading) && isVerified == old(isVerified)
      ensures sliderPosition == old(sliderPosition) && pieceLeft == old(pieceLeft)
      ensures correctPosition == old(correctPosition) && pendingIssues == old(pendingIssues)
      ensures pendingAutoVerifies == old(pendingAutoVerifies) && emitted == old(emitted)
    {
      isDragging := true;
      listeners := listeners + {MoveListener(pointer), UpListener(pointer)};
    }

    /**
     * A mouse or touch move at clientX over a track at trackLeft of width
     * trackWidth. It reaches the handler only while that pointer's move listener
     * is attached, and changes nothing unless dragging with the puzzle shown;
     * then the slider takes the clamped percentage and the piece its offset.
     */
    method Move(pointer: Pointer, clientX: real, trackLeft: real, trackWidth: real)
      requires Valid() && trackWidth > 0.0
      modifies this
      ensures Valid()
      ensures if MoveListener(pointer) in old(listeners) && old(isDragging) && !old(isLoading) then
          && sliderPosition == SliderPercentage(clientX, trackLeft, trackWidth)
          && pieceLeft == PieceOffset(sliderPosition, maxX)
        else
          sliderPosition == old(sliderPosition) && pieceLeft == old(pieceLeft)
      ensures isDragging == old(isDragging) && isLoading == old(isLoading) && isVerified == old(isVerified)
      ensures correctPosition == old(correctPosition) && listeners == old(listeners)
      ensures pendingIssues == old(pendingIssues) && pendingAutoVerifies == old(pendingAutoVerifies)
      ensures emitted == old(emitted)
    {
      if MoveListener(pointer) !in listeners || !isDragging || isLoading {
        return;
      }
      var percentage := SliderPercentage(clientX, trackLeft, trackWidth);
      sliderPosition := percentage;
      pieceLeft := PieceOffset(percentage, maxX);
    }

    /** The current truncated piece offset is within tolerance of the shown challenge. */
    predicate CloseEnough()
      reads this
    {
      !isLoading && correctPosition.Some?
      && WithinTolerance(pieceLeft, correctPosition.value.x, Tolerance(difficulty))
    }

    /**
     * autoVerifyIfClose: when the puzzle is shown and the piece is within
     * tolerance, snap the slider and piece to the target and schedule an
     * automatic verification; otherwise change nothing.
     */
    method AutoVerifyIfClose()
      requires Valid()
      modifies this
      ensures Valid()
      ensures old(CloseEnough()) ==>
        && sliderPosition == SnapPercentage(old(correctPosition).value.x)
        && pieceLeft == PieceOffset(sliderPosition, maxX)
        && pendingAutoVerifies == old(pendingAutoVerifies) + 1
      ensures !old(CloseEnough()) ==>
        && sliderPosition == old(sliderPosition) && pieceLeft == old(pieceLeft)
        && pendingAutoVerifies == old(pendingAutoVerifies)
      ensures isDragging == old(isDragging) && isLoading == old(isLoading) && isVerified == old(isVerified)
      ensures correctPosition == old(correctPosition) && listeners == old(listeners)
      ensures pendingIssues == old(pendingIssues) && emitted == old(emitted)
    {
      if isLoading || correctPosition.None? {
        return;
      }
      var correctX := correctPosition.value.x;
      if WithinTolerance(pieceLeft, correctX, Tolerance(difficulty)) {
        var percentage := SnapPercentage(correctX);
        sliderPosition := percentage;
        pieceLeft := PieceOffset(percentage, maxX);
        pendingAutoVerifies := pendingAutoVerifies + 1;
      }
    }

    /**
     * Mouse up or touch end. It reaches the handler only while that pointer's
     * release listener is attached; then dragging stops, the pointer's listeners
     * are detached and the auto-verify check runs.
     */
    method Release(pointer: Pointer)
      requires Valid()
      modifies this
      ensures Valid()
      ensures UpListener(pointer) !in old(listeners) ==>
        && isDragging == old(isDragging) && listeners == old(listeners)
        && sliderPosition == old(sliderPosition) && pieceLeft == old(pieceLeft)
        && pendingAutoVerifies == old(pendingAutoVerifies)
      ensures UpListener(pointer) in old(listeners) ==>
        && !isDragging
        && listeners == old(listeners) - {MoveListener(pointer), UpListener(pointer)}
        && (old(CloseEnough()) ==>
              && sliderPosition == SnapPercentage(old(correctPosition).value.x)
              && pieceLeft == PieceOffset(sliderPosition, maxX)
              && pendingAutoVerifies == old(pendingAutoVerifies) + 1)
        && (!old(CloseEnough()) ==>
              && sliderPosition == old(sliderPosition) && pieceLeft == old(pieceLeft)
              && pendingAutoVerifies == old(pendingAutoVerifies))
      ensures isLoading == old(isLoading) && isVerified == old(isVerified)
      ensures correctPosition == old(correctPosition) && pendingIssues == old(pendingIssues)
      ensures emitted == old(emitted)
    {
      if UpListener(pointer) !in listeners {
        return;
      }
      isDragging := false;
      listeners := listeners - {MoveListener(pointer), UpListener(pointer)};
      AutoVerifyIfClose();
    }

    /** The tolerance test handleVerify applies to the current state. */
    predicate Passes()
      reads this
    {
      WithinTolerance(pieceLeft, TargetX(correctPosition), Tolerance(difficulty))
    }

    /**
     * handleVerify(autoVerified). On a pass: verified, onVerify(true) reported,
     * and the piece (when shown) placed exactly on the target. On a miss:
     * onVerify(false, "Verification failed") reported unless the attempt was
     * automatic, then a new initialisation that will reset the slider.
     */
    method Verify(autoVerified: bool)
      requires Valid()
      modifies this
      ensures Valid()
      ensures old(Passes()) ==>
        && isVerified
        && emitted == old(emitted) + [OnVerify(true, None)]
        && pieceLeft == (if !old(isLoading) then old(correctPosition).value.x as real else old(pieceLeft))
        && isLoading == old(isLoading) && pendingIssues == old(pendingIssues)
      ensures !old(Passes()) ==>
        && isVerified == old(isVerified)
        && emitted == old(emitted) + (if autoVerified then [] else [OnVerify(false, Some(VerificationFailed))])
        && isLoading && pieceLeft == 0.0
        && pendingIssues == old(pendingIssues) + [true]
      ensures sliderPosition == old(sliderPosition) && correctPosition == old(correctPosition)
      ensures isDragging == old(isDragging) && listeners == old(listeners)
      ensures pendingAutoVerifies == old(pendingAutoVerifies)
    {
      var isCorrect := WithinTolerance(pieceLeft, TargetX(correctPosition), Tolerance(difficulty));
      if isCorrect {
        isVerified := true;
        emitted := emitted + [OnVerify(true, None)];
        if !isLoading && correctPosition.Some? {
          pieceLeft := correctPosition.value.x as real;
        }
      } else {
        if !autoVerified {
          emitted := emitted + [OnVerify(false, Some(VerificationFailed))];
        }
        BeginInit(true);
      }
    }

    /** The verify button, clickable only while the puzzle is shown and not yet verified. */
    method ClickVerify()
      requires Valid() && !isLoading && !VerifyButtonDisabled()
      modifies this
      ensures Valid()
      ensures old(Passes()) ==>
        && isVerified && !isLoading
        && emitted == old(emitted) + [OnVerify(true, None)]
        && pieceLeft == correctPosition.value.x as real
        && pendingIssues == old(pendingIssues)
      ensures !old(Passes()) ==>
        && !isVerified && isLoading && pieceLeft == 0.0
        && emitted == old(emitted) + [OnVerify(false, Some(VerificationFailed))]
        && pendingIssues == old(pendingIssues) + [true]
      ensures sliderPosition == old(sliderPosition) && correctPosition == old(correctPosition)
      ensures isDragging == old(isDragging) && listeners == old(listeners)
      ensures pendingAutoVerifies == old(pendingAutoVerifies)
    {
      Verify(false);
    }

    /** A scheduled auto-verification fires: handleVerify(true). */
    method FireAutoVerify()
      requires Valid() && pendingAutoVerifies > 0
      modifies this
      ensures Valid()
      ensures pendingAutoVerifies == old(pendingAutoVerifies) - 1
      ensures old(Passes()) ==>
        && isVerified
        && emitted == old(emitted) + [OnVerify(true, None)]
        && pieceLeft == (if !old(isLoading) then old(correctPosition).value.x as real else old(pieceLeft))
        && isLoading == old(isLoading) && pendingIssues == old(pendingIssues)
      ensures !old(Passes()) ==>
        && isVerified == old(isVerified) && emitted == old(emitted)
        && isLoading && pieceLeft == 0.0
        && pendingIssues == old(pendingIssues) + [true]
      ensures sliderPosition == old(sliderPosition) && correctPosition == old(correctPosition)
      ensures isDragging == old(isDragging) && listeners == old(listeners)
    {
      pendingAutoVerifies := pendingAutoVerifies - 1;
      Verify(true);
    }
  }

  /**
   * A successful automatic path: the challenge puts the hole at 160, a mouse
   * drag to the middle of a 320-pixel track puts the piece there, and the
   * release schedules an auto-verification that reports success exactly once.
   */
  method AutoVerifyScenario()
  {
    var c := new Captcha("medium", SnapTravel as real);
    c.CompleteIssue(Some(0.5));
    assert c.correctPosition == Some(Challenge(160, 110));
    c.Press(Mouse);
    c.Move(Mouse, 160.0, 0.0, 320.0);
    assert c.pieceLeft == 160.0;
    TruncOfInteger(160);
    c.Release(Mouse);
    assert c.pendingAutoVerifies == 1 && !c.isDragging;
    SnappedPiecePasses(160, Tolerance("medium"));
    c.FireAutoVerify();
    assert c.isVerified && c.emitted == [OnVerify(true, None)];
  }

  /**
   * A failed manual attempt on hard: the hole is at 150, the piece at 160,
   * the explicit verify reports failure and a new challenge is requested;
   * when it arrives the slider is back at 0.
   */
  method ManualFailureScenario()
  {
    var c := new Captcha("hard", SnapTravel as real);
    c.CompleteIssue(Some(130.0 / 280.0));
    GenerateChallengeCovers(150);
    assert c.correctPosition == Some(Challenge(150, 110));
    c.Press(Touch);
    c.Move(Touch, 160.0, 0.0, 320.0);
    c.Release(Touch);
    assert !c.CloseEnough() by { TruncOfInteger(160); }
    TruncOfInteger(160);
    c.ClickVerify();
    assert c.emitted == [OnVerify(false, Some(VerificationFailed))];
    assert c.isLoading && c.pendingIssues == [true];
    c.CompleteIssue(Some(0.25));
    assert !c.isLoading && c.sliderPosition == 0.0 && c.pieceLeft == 0.0;
  }
}
