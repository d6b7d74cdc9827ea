/** The `useRecordForm` hook: the form for recording a stamp, with its eight
    state cells, field setters that clear their own error, validation, and a
    submit that uploads the photo and then creates the stamp row.

    The signed-in user's id, the clock ("now") and the three services
    (`uploadStampImage`, `createStamp`, `fetchSpotById`) are parameters; the
    services are oracles from their request to how the call settles. */
module RecordForm {
  import opened Domain

  const SPOT_REQUIRED: string := "スポットを選択してください"
  const IMAGE_REQUIRED: string := "御朱印の写真を追加してください"
  const SAVE_FAILED: string := "保存に失敗しました"
  /** What dereferencing a missing user throws (the engine's TypeError text). */
  const NO_USER: string := "Cannot read properties of null (reading 'id')"

  /** A `Date`, as milliseconds since the epoch. */
  type Instant = int

  /** What `createStamp` is called with. */
  datatype StampRequest = StampRequest(userId: string, spotId: string, imagePath: string, visitedAt: Instant, memo: string)

  datatype ServiceCall =
    | UploadCall(userId: string, imageUri: string)
    | CreateCall(request: StampRequest)

  type Upload = (string, string) -> Outcome<string>
  type Create = StampRequest -> Outcome<Stamp>

  datatype SubmitResult = SubmitResult(success: bool, stamp: Option<Stamp>)

  /** `!imageUri` holds for null and for the empty string. */
  predicate HasImage(imageUri: Option<string>)
    // null and the empty string are both falsy
    ensures imageUri.None? ==> !HasImage(imageUri)
    ensures imageUri == Some([]) ==> !HasImage(imageUri)
    ensures imageUri.Some? && imageUri.value != [] ==> HasImage(imageUri)
  {
    imageUri.Some? && imageUri.value != []
  }

  /** What `validate` decides and the two error cells it writes. */
  datatype Verdict = Verdict(valid: bool, spotError: Option<string>, imageError: Option<string>)

  function Check(selectedSpot: Option<Spot>, imageUri: Option<string>): (v: Verdict)
    ensures v.valid <==> selectedSpot.Some? && HasImage(imageUri)
    ensures v.spotError.Some? <==> selectedSpot.None?
    ensures v.imageError.Some? <==> !HasImage(imageUri)
    ensures v.spotError.Some? ==> v.spotError.value == SPOT_REQUIRED
    ensures v.imageError.Some? ==> v.imageError.value == IMAGE_REQUIRED
  {
    Verdict(selectedSpot.Some? && HasImage(imageUri),
            if selectedSpot.None? then Some(SPOT_REQUIRED) else None,
            if HasImage(imageUri) then None else Some(IMAGE_REQUIRED))
  }

  /** What one submit of a valid form does: the results, the service calls
      in order, and the final `submitError`. */
  datatype Attempt = Attempt(result: SubmitResult, calls: seq<ServiceCall>, submitError: Option<string>)

  function SubmitValid(spot: Spot, imageUri: string, visitedAt: Instant, memo: string,
                       user: Option<string>, upload: Upload, create: Create): (a: Attempt)
    ensures a.result.success <==> a.result.stamp.Some?
    ensures a.result.success <==> a.submitError.None?
    ensures |a.calls| <= 2
    ensures user.None? <==> a.calls == []
    ensures user.Some? ==> a.calls[0] == UploadCall(user.value, imageUri)
    ensures |a.calls| == 2 ==>
      && user.Some? && upload(user.value, imageUri).Resolved?
      && a.calls[1] == CreateCall(StampRequest(user.value, spot.id, upload(user.value, imageUri).value, visitedAt, memo))
    ensures a.result.success ==> |a.calls| == 2 && create(a.calls[1].request) == Resolved(a.result.stamp.value)
    ensures !a.result.success && |a.calls| == 2 ==> create(a.calls[1].request).Rejected?
    // the error left in `submitError` for each way of failing
    ensures user.None? ==> a.submitError == Some(NO_USER)
    ensures |a.calls| == 1 ==>
      && upload(user.value, imageUri).Rejected?
      && a.submitError == Some(MessageOr(upload(user.value, imageUri).thrown, SAVE_FAILED))
    ensures !a.result.success && |a.calls| == 2 ==>
      a.submitError == Some(MessageOr(create(a.calls[1].request).thrown, SAVE_FAILED))
  {
    match user
    case None => Attempt(SubmitResult(false, None), [], Some(NO_USER))
    case Some(userId) =>
      var uploadCall := UploadCall(userId, imageUri);
      match upload(userId, imageUri)
      case Rejected(thrown) => Attempt(SubmitResult(false, None), [uploadCall], Some(MessageOr(thrown, SAVE_FAILED)))
      case Resolved(imagePath) =>
        var request := StampRequest(userId, spot.id, imagePath, visitedAt, memo);
        match create(request)
        case Rejected(thrown) =>
          Attempt(SubmitResult(false, None), [uploadCall, CreateCall(request)], Some(MessageOr(thrown, SAVE_FAILED)))
        case Resolved(stamp) =>
          Attempt(SubmitResult(true, Some(stamp)), [uploadCall, CreateCall(request)], None)
  }

  /** Submitting succeeds exactly when there is a user and both services
      resolve, and the stamp returned is the one `createStamp` made. */
  lemma SubmitSucceedsIff(spot: Spot, imageUri: string, visitedAt: Instant, memo: string,
                          user: Option<string>, upload: Upload, create: Create)
    ensures var a := SubmitValid(spot, imageUri, visitedAt, memo, user, upload, create);
      a.result.success <==>
        && user.Some? && upload(user.value, imageUri).Resolved?
        && create(StampRequest(user.value, spot.id, upload(user.value, imageUri).value, visitedAt, memo)).Resolved?
  {
  }

  /** A failing service leaves its error's message (or the generic one) in
      `submitError`, and no stamp. */
  lemma FailureKeepsMessage(spot: Spot, imageUri: string, visitedAt: Instant, memo: string,
                            userId: string, upload: Upload, create: Create)
    requires upload(userId, imageUri).Rejected?
    ensures var a := SubmitValid(spot, imageUri, visitedAt, memo, Some(userId), upload, create);
      && a.result == SubmitResult(false, None)
      && a.calls == [UploadCall(userId, imageUri)]
      && a.submitError == Some(MessageOr(upload(userId, imageUri).thrown, SAVE_FAILED))
  {
  }

  /** The eight state cells of one form. */
  class RecordFormHook {
    var selectedSpot: Option<Spot>
    var imageUri: Option<string>
    var visitedAt: Instant
    var memo: string
    var spotError: Option<string>
    var imageError: Option<string>
    var isSubmitting: bool
    var submitError: Option<string>

    predicate IsInitial(now: Instant)
      reads this
    {
      && selectedSpot == None && imageUri == None && visitedAt == now && memo == []
      && spotError == None && imageError == None && !isSubmitting && submitError == None
    }

    constructor (now: Instant)
      ensures IsInitial(now)
    {
      selectedSpot, imageUri, visitedAt, memo := None, None, now, [];
      spotError, imageError, isSubmitting, submitError := None, None, false, None;
    }

    /** The `initialSpotId` effect: fetch that spot and select it if found.
        Returns the id it asked for, if any. */
    method LoadInitialSpot(initialSpotId: Option<string>, fetchSpotById: string -> Option<Spot>)
      returns (requested: Option<string>)
      modifies this`selectedSpot
      ensures requested == if initialSpotId.Some? && initialSpotId.value != [] then initialSpotId else None
      ensures selectedSpot ==
        if requested.Some? && fetchSpotById(requested.value).Some? then fetchSpotById(requested.value) else old(selectedSpot)
    {
      requested := None;
      if initialSpotId.Some? && initialSpotId.value != [] {
        requested := initialSpotId;
        var spot := fetchSpotById(initialSpotId.value);
        if spot.Some? {
          selectedSpot := spot;
        }
      }
    }

    method SelectSpot(spot: Spot)
      modifies this`selectedSpot, this`spotError
      ensures selectedSpot == Some(spot) && spotError == None
    {
      selectedSpot := Some(spot);
      spotError := None;
    }

    method SetImageUri(uri: string)
      modifies this`imageUri, this`imageError
      ensures imageUri == Some(uri) && imageError == None
    {
      imageUri := Some(uri);
      imageError := None;
    }

    method SetVisitedAt(date: Instant)
      modifies this`visitedAt
      ensures visitedAt == date
    {
      visitedAt := date;
    }

    method SetMemo(text: string)
      modifies this`memo
      ensures memo == text
    {
      memo := text;
    }

    method Validate() returns (valid: bool)
      modifies this`spotError, this`imageError
      ensures Check(selectedSpot, imageUri) == Verdict(valid, spotError, imageError)
    {
      valid := true;
      if selectedSpot.None? {
        spotError := Some(SPOT_REQUIRED);
        valid := false;
      } else {
        spotError := None;
      }
      if !HasImage(imageUri) {
        imageError := Some(IMAGE_REQUIRED);
        valid := false;
      } else {
        imageError := None;
      }
    }

    /** `submit()` for the signed-in `user` (None when signed out). Returns
        the result and the service calls made, in order. */
    method Submit(user: Option<string>, upload: Upload, create: Create)
      returns (result: SubmitResult, calls: seq<ServiceCall>)
      modifies this`spotError, this`imageError, this`isSubmitting, this`submitError
      ensures Check(selectedSpot, imageUri) == Verdict(Check(selectedSpot, imageUri).valid, spotError, imageError)
      ensures !Check(selectedSpot, imageUri).valid ==>
        && result == SubmitResult(false, None) && calls == []
        && isSubmitting == old(isSubmitting) && submitError == old(submitError)
      ensures Check(selectedSpot, imageUri).valid ==>
        && Attempt(result, calls, submitError) == SubmitValid(selectedSpot.value, imageUri.value, visitedAt, memo, user, upload, create)
        && !isSubmitting
    {
      var valid := Validate();
      if !valid {
        return SubmitResult(false, None), [];
      }
      isSubmitting := true;
      submitError := None;
      calls := [];
      if user.None? {
        submitError := Some(NO_USER);
        result := SubmitResult(false, None);
      } else {
        var userId := user.value;
        calls := calls + [UploadCall(userId, imageUri.value)];
        var uploaded := upload(userId, imageUri.value);
        if uploaded.Rejected? {
          submitError := Some(MessageOr(uploaded.thrown, SAVE_FAILED));
          result := SubmitResult(false, None);
        } else {
          var request := StampRequest(userId, selectedSpot.value.id, uploaded.value, visitedAt, memo);
          calls := calls + [CreateCall(request)];
          var created := create(request);
          if created.Rejected? {
            submitError := Some(MessageOr(created.thrown, SAVE_FAILED));
            result := SubmitResult(false, None);
          } else {
            result := SubmitResult(true, Some(created.value));
          }
        }
      }
      isSubmitting := false;
    }

    method Reset(now: Instant)
      modifies this
      ensures IsInitial(now)
    {
      selectedSpot := None;
      imageUri := None;
      visitedAt := now;
      memo := [];
      spotError := None;
      imageError := None;
      submitError := None;
      isSubmitting := false;
    }
  }

  /** Selecting a spot and a photo makes the form valid; a successful submit
      returns the created stamp and ends with `isSubmitting` false. */
  method SubmitScenario(spot: Spot, stamp: Stamp, now: Instant)
  {
    var form := new RecordFormHook(now);
    form.SelectSpot(spot);
    form.SetImageUri("file:///photo.jpg");
    var upload: Upload := (u, i) => Resolved("user-1/12345.jpg");
    var create: Create := r => Resolved(stamp);
    var result, calls := form.Submit(Some("user-1"), upload, create);
    assert result == SubmitResult(true, Some(stamp)) && !form.isSubmitting;
    assert calls[0] == UploadCall("user-1", "file:///photo.jpg");
    form.Reset(now);
    assert form.IsInitial(now);
  }
}
