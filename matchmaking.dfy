/**
 * The "Find an opponent" dialog of `components/Matchmaking.tsx`: the bid
 * form and its validation, the request sent to the matchmaking server, and
 * the two request-status cells driven by the wager transfer, the server's
 * status stream and the cancel button.
 *
 * Every asynchronous call (the wager transfer, the POST that queues the
 * player, the cancel GET, the refund transfer) is replaced by a parameter
 * that says how it settled; what the dialog does in response is recorded
 * in an effect log.
 */
module Matchmaking {
  import opened Wrappers

  /** `ReqStatus`: the life cycle of one request. */
  datatype ReqStatus = Idle | Loading | Success | Error

  /** `BidValue`: the player's own wager and the smallest opponent wager they accept (0 when left blank). */
  datatype Bid = Bid(min: nat, value: nat)

  /** The `name` attribute of the input that fired: "min" or "value". */
  datatype BidField = MinField | ValueField

  /** The four warnings `validateInput` can raise, in the order it checks for them. */
  datatype Warning = MinAboveBid | BidNotMultipleOfTen | MinNotMultipleOfTen | BidTooSmall

  /** The body of `POST /match`. */
  datatype MatchRequest = MatchRequest(username: string, tokenBid: nat, minBid: nat)

  /** The `status` argument of a toast. */
  datatype ToastKind = ToastSuccess | ToastWarning | ToastError

  /** Which toast was raised; amounts are carried where the text interpolates them. */
  datatype Notice =
    | InvalidBid(warning: Warning)
    | WagerReceived(amount: nat)
    | WagerTransferFailed
    | MatchFound
    | OpponentFetchFailed
    | CancelRefunded(refund: real)
    | RefundFailed

  /** What the dialog does to the world outside its own state. */
  datatype Effect =
    | Toast(kind: ToastKind, notice: Notice)
    | TransferToOwner(amount: nat)
    | PostMatch(request: MatchRequest)
    | RequestCancel(uuid: string)
    | Refund(refundAmount: real, to: string)
    | CloseModal
    | Navigate(path: string)

  /** How the POST to `/match` settled: it threw, or it answered with a `UUID` field (absent as `None`). */
  datatype PostOutcome = PostFailed | PostAnswered(uuid: Option<string>)

  /** How the cancel GET settled: it threw, or it answered with an HTTP status. */
  datatype CancelOutcome = CancelThrew | CancelAnswered(status: int)

  /** JavaScript truthiness of an optional string: present and non-empty. */
  predicate Truthy(s: Option<string>)
  {
    s.Some? && s.value != ""
  }

  /**
   * `validateInput`: the four checks in order; the first one that fails
   * names the single warning shown, and `None` means the bid is accepted.
   * `minBid` is the configured minimum wager.
   */
  function Validate(bid: Bid, minBid: nat): (w: Option<Warning>)
    ensures w == None <==>
      bid.min <= bid.value && bid.value % 10 == 0 && bid.min % 10 == 0 && minBid <= bid.value
    ensures w == Some(MinAboveBid) <==> bid.value < bid.min
  {
    if bid.value < bid.min then Some(MinAboveBid)
    else if bid.value % 10 != 0 then Some(BidNotMultipleOfTen)
    else if bid.min % 10 != 0 then Some(MinNotMultipleOfTen)
    else if bid.value < minBid then Some(BidTooSmall)
    else None
  }

  /** The boolean `validateInput` returns. */
  predicate ValidateInput(bid: Bid, minBid: nat)
  {
    Validate(bid, minBid) == None
  }

  /** The rank of a warning in the chain of checks. */
  function Rank(w: Warning): nat
  {
    match w
    case MinAboveBid => 0
    case BidNotMultipleOfTen => 1
    case MinNotMultipleOfTen => 2
    case BidTooSmall => 3
  }

  /** Whether the check that raises `w` fails on `bid`, independently of the others. */
  predicate Fails(w: Warning, bid: Bid, minBid: nat)
  {
    match w
    case MinAboveBid => bid.value < bid.min
    case BidNotMultipleOfTen => bid.value % 10 != 0
    case MinNotMultipleOfTen => bid.min % 10 != 0
    case BidTooSmall => bid.value < minBid
  }

  /**
   * The warning shown is the failing check that comes first: it fails, and
   * every check ranked before it passes.  So a minimum above the bid is
   * reported ahead of any multiple-of-ten or minimum-wager failure.
   */
  lemma ValidateReportsFirstFailure(bid: Bid, minBid: nat)
    ensures Validate(bid, minBid) == None <==> forall w: Warning :: !Fails(w, bid, minBid)
    ensures Validate(bid, minBid).Some? ==>
      var shown := Validate(bid, minBid).value;
      Fails(shown, bid, minBid) &&
      forall w: Warning :: Rank(w) < Rank(shown) ==> !Fails(w, bid, minBid)
  {
    if Validate(bid, minBid) == None {
      forall w: Warning ensures !Fails(w, bid, minBid) {
        match w
        case MinAboveBid =>
        case BidNotMultipleOfTen =>
        case MinNotMultipleOfTen =>
        case BidTooSmall =>
      }
    } else {
      assert Fails(MinAboveBid, bid, minBid) || Fails(BidNotMultipleOfTen, bid, minBid) ||
             Fails(MinNotMultipleOfTen, bid, minBid) || Fails(BidTooSmall, bid, minBid);
    }
  }

  /**
   * `min_bid` in the request: the player's own minimum, replaced by the
   * wager itself only when the minimum is blank (0 here).
   */
  function MinBidSent(bid: Bid): (m: nat)
    ensures m == bid.min || m == bid.value
    ensures m != bid.min ==> bid.min == 0
    ensures m == 0 <==> bid.min == 0 && bid.value == 0
    ensures bid.min <= bid.value ==> m <= bid.value
  {
    if bid.min == 0 then bid.value else bid.min
  }

  /**
   * The body `findMatchOpponent` posts: `token_bid` is always the wager
   * itself, and the minimum sent exceeds it only when the player's own
   * minimum already did.
   */
  function MatchRequestFor(username: string, bid: Bid): (r: MatchRequest)
    ensures r.username == username && r.tokenBid == bid.value
    ensures r.minBid <= r.tokenBid <==> bid.min <= bid.value
  {
    MatchRequest(username, bid.value, MinBidSent(bid))
  }

  /**
   * A bid that passes validation yields a request whose minimum opponent
   * wager is a multiple of ten no larger than the player's own wager.
   */
  lemma ValidatedRequestIsConsistent(username: string, bid: Bid, minBid: nat)
    requires ValidateInput(bid, minBid)
    ensures MatchRequestFor(username, bid).minBid <= MatchRequestFor(username, bid).tokenBid
    ensures MatchRequestFor(username, bid).minBid % 10 == 0
    ensures minBid <= MatchRequestFor(username, bid).tokenBid
  {
  }

  /** The value an input shows: `bid[name]`. */
  function FieldOf(bid: Bid, field: BidField): (v: nat)
  {
    match field
    case MinField => bid.min
    case ValueField => bid.value
  }

  /** `handleBidInput`: the field named by the input reads back the typed value, every other field reads as before. */
  function WithField(bid: Bid, field: BidField, v: nat): (r: Bid)
    ensures FieldOf(r, field) == v
    ensures forall other: BidField :: other != field ==> FieldOf(r, other) == FieldOf(bid, other)
  {
    match field
    case MinField => bid.(min := v)
    case ValueField => bid.(value := v)
  }

  /**
   * The update laws of `handleBidInput`: re-entering the value a field
   * shows changes nothing, the last value typed into a field wins, and
   * edits to the two fields are independent of their order.
   */
  lemma WithFieldLaws(bid: Bid, field: BidField, other: BidField, v: nat, w: nat)
    ensures WithField(bid, field, FieldOf(bid, field)) == bid
    ensures WithField(WithField(bid, field, v), field, w) == WithField(bid, field, w)
    ensures field != other ==>
      WithField(WithField(bid, field, v), other, w) == WithField(WithField(bid, other, w), field, v)
  {
  }

  /** The action button's gate: `isDisabled: !bid.value`, and a button is also disabled while `isLoading`. */
  predicate ActionEnabled(bid: Bid, status: ReqStatus)
  {
    bid.value != 0 && status != Loading
  }

  /** What a click on the dialog's Cancel button does. */
  datatype CancelAction = DoNothing | CloseOnly | RequestCancellation(uuid: string)

  /** The Cancel button of the modal frame: it runs the frame's `onClose` prop, and nothing when that prop is absent. */
  function ModalCancelAction(onCloseProp: Option<CancelAction>): (a: CancelAction)
  {
    if onCloseProp.Some? then onCloseProp.value else DoNothing
  }

  /** As written: the dialog hands the frame no `onClose` (only `cancelButtonProps`, which the frame ignores). */
  function RenderedCancelAction(uuid: Option<string>): (a: CancelAction)
  {
    ModalCancelAction(None)
  }

  /** As intended by the `cancelButtonProps.onClick` choice: close without a uuid, cancel the queued request with one. */
  function IntendedCancelAction(uuid: Option<string>): (a: CancelAction)
    ensures a.RequestCancellation? <==> Truthy(uuid)
    ensures a.RequestCancellation? ==> a.uuid == uuid.value
    ensures !Truthy(uuid) ==> a == CloseOnly
    ensures ModalCancelAction(Some(a)) == a
  {
    if !Truthy(uuid) then CloseOnly else RequestCancellation(uuid.value)
  }

  /**
   * The as-written wiring cannot reach the cancellation: with a queued
   * request (uuid "m-1") the intended action is to cancel it and refund the
   * wager, but the rendered button does nothing.
   */
  lemma CancelButtonDoesNothing()
    ensures RenderedCancelAction(Some("m-1")) == DoNothing
    ensures IntendedCancelAction(Some("m-1")) == RequestCancellation("m-1")
    ensures forall uuid :: Truthy(uuid) ==> RenderedCancelAction(uuid) != IntendedCancelAction(uuid)
  {
  }

  /** The refund on cancel: the wager less the platform fee fraction. */
  function RefundAmount(value: nat, platformFee: real): (r: real)
    ensures 0.0 <= platformFee <= 1.0 ==> 0.0 <= r <= value as real
    ensures platformFee == 0.0 ==> r == value as real
  {
    var v := value as real;
    assert 0.0 <= platformFee <= 1.0 ==> 0.0 <= v * platformFee <= v * 1.0;
    v * (1.0 - platformFee)
  }

  class MatchmakingDialog {
    /** `appConfig.minBid`. */
    const minBid: nat
    /** `appConfig.platformFee`, a fraction. */
    const platformFee: real
    /** The signed-in user's address, `user.attributes.ethAddress`. */
    const userAddress: string

    var bid: Bid
    var uuid: Option<string>
    var matchmakingStatus: ReqStatus
    var cancelStatus: ReqStatus
    /** Whether an `EventSource` on `/match/status?uuid=…` is open. */
    var listening: bool
    /** Everything the dialog has done outside its own state, oldest first. */
    var effects: seq<Effect>

    /** The status stream is open only while a truthy uuid is held. */
    ghost predicate Valid()
      reads this
    {
      0.0 <= platformFee <= 1.0 && (listening ==> Truthy(uuid))
    }

    constructor (minBid: nat, platformFee: real, userAddress: string)
      requires 0.0 <= platformFee <= 1.0
      ensures Valid()
      ensures this.minBid == minBid && this.platformFee == platformFee && this.userAddress == userAddress
      ensures bid == Bid(0, 0) && uuid == None
      ensures matchmakingStatus == Idle && cancelStatus == Idle
      ensures !listening && effects == []
    {
      this.minBid := minBid;
      this.platformFee := platformFee;
      this.userAddress := userAddress;
      bid := Bid(0, 0);
      uuid := None;
      matchmakingStatus := Idle;
      cancelStatus := Idle;
      listening := false;
      effects := [];
    }

    /** `handleBidInput`: only the bid changes, and only in the named field. */
    method HandleBidInput(field: BidField, v: nat)
      requires Valid()
      modifies this`bid
      ensures Valid()
      ensures bid == WithField(old(bid), field, v)
    {
      bid := WithField(bid, field, v);
    }

    /**
     * `handleMatchmaking` followed by `findMatchOpponent`.  A bid that fails
     * validation raises its warning and nothing else.  Otherwise the status
     * goes to loading and the wager is transferred to the platform; on a
     * failed transfer the status becomes error, on success the match request
     * is posted and its answer either sets the uuid (opening the status
     * stream when the uuid is truthy) or sets the status to error.
     */
    method HandleMatchmaking(transferOk: bool, post: PostOutcome)
      requires Valid()
      modifies this`matchmakingStatus, this`uuid, this`listening, this`effects
      ensures Valid()
      ensures !ValidateInput(old(bid), minBid) ==>
        && matchmakingStatus == old(matchmakingStatus) && uuid == old(uuid) && listening == old(listening)
        && effects == old(effects) + [Toast(ToastWarning, InvalidBid(Validate(old(bid), minBid).value))]
      ensures ValidateInput(old(bid), minBid) && !transferOk ==>
        && matchmakingStatus == Error && uuid == old(uuid) && listening == old(listening)
        && effects == old(effects) + [TransferToOwner(bid.value), Toast(ToastError, WagerTransferFailed)]
      ensures ValidateInput(old(bid), minBid) && transferOk ==>
        && effects == old(effects) + [TransferToOwner(bid.value), Toast(ToastSuccess, WagerReceived(bid.value)),
                                      PostMatch(MatchRequestFor(userAddress, bid))]
        && (post.PostFailed? ==> matchmakingStatus == Error && uuid == old(uuid) && listening == old(listening))
        && (post.PostAnswered? ==> matchmakingStatus == Loading && uuid == post.uuid && listening == Truthy(post.uuid))
    {
      var warning := Validate(bid, minBid);
      if warning.Some? {
        effects := effects + [Toast(ToastWarning, InvalidBid(warning.value))];
        return;
      }
      matchmakingStatus := Loading;
      effects := effects + [TransferToOwner(bid.value)];
      if !transferOk {
        matchmakingStatus := Error;
        effects := effects + [Toast(ToastError, WagerTransferFailed)];
        return;
      }
      effects := effects + [Toast(ToastSuccess, WagerReceived(bid.value)), PostMatch(MatchRequestFor(userAddress, bid))];
      match post
      case PostFailed =>
        matchmakingStatus := Error;
      case PostAnswered(answer) =>
        uuid := answer;
        listening := Truthy(answer);
    }

    /**
     * `cancelMatchmaking`: the matchmaking status is reset to idle and the
     * cancel status goes to loading before the request.  Only a 200 answer
     * refunds the wager less the fee to the user's own address, and the
     * refund's outcome decides success or error (closing the dialog either
     * way).  The request rejects on a network failure and, as the HTTP
     * client does by default, on any status outside 2xx: both give error.
     * Any other 2xx answer leaves the cancel status at loading.  The refund
     * is computed from the bid currently in the form.
     */
    method CancelMatchmaking(id: string, answer: CancelOutcome, refundOk: bool)
      requires Valid()
      modifies this`matchmakingStatus, this`cancelStatus, this`effects
      ensures Valid()
      ensures matchmakingStatus == Idle
      ensures answer == CancelAnswered(200) ==>
        && cancelStatus == (if refundOk then Success else Error)
        && effects == old(effects) + [RequestCancel(id), Refund(RefundAmount(bid.value, platformFee), userAddress)]
                      + (if refundOk then [Toast(ToastSuccess, CancelRefunded(RefundAmount(bid.value, platformFee)))]
                         else [Toast(ToastSuccess, RefundFailed)])
                      + [CloseModal]
      ensures answer == CancelThrew || (answer.CancelAnswered? && !(200 <= answer.status < 300)) ==>
        cancelStatus == Error && effects == old(effects) + [RequestCancel(id)]
      ensures answer.CancelAnswered? && 200 < answer.status < 300 ==>
        cancelStatus == Loading && effects == old(effects) + [RequestCancel(id)]
    {
      cancelStatus := Loading;
      matchmakingStatus := Idle;
      effects := effects + [RequestCancel(id)];
      match answer
      case CancelThrew =>
        cancelStatus := Error;
      case CancelAnswered(status) =>
        if !(200 <= status < 300) {
          cancelStatus := Error;
        } else if status == 200 {
          var refund := RefundAmount(bid.value, platformFee);
          effects := effects + [Refund(refund, userAddress)];
          if refundOk {
            effects := effects + [Toast(ToastSuccess, CancelRefunded(refund))];
            cancelStatus := Success;
          } else {
            effects := effects + [Toast(ToastSuccess, RefundFailed)];
            cancelStatus := Error;
          }
          effects := effects + [CloseModal];
        }
    }

    /**
     * A Cancel click as the `cancelButtonProps.onClick` choice intends it
     * (`IntendedCancelAction`): without a uuid it only closes the dialog;
     * with one it cancels the queued request.
     */
    method OnCancelClick(answer: CancelOutcome, refundOk: bool)
      requires Valid()
      modifies this`matchmakingStatus, this`cancelStatus, this`effects
      ensures Valid()
      ensures IntendedCancelAction(old(uuid)) == CloseOnly ==>
        && effects == old(effects) + [CloseModal]
        && matchmakingStatus == old(matchmakingStatus) && cancelStatus == old(cancelStatus)
      ensures IntendedCancelAction(old(uuid)).RequestCancellation? ==>
        && matchmakingStatus == Idle
        && |effects| > |old(effects)| && effects[|old(effects)|] == RequestCancel(old(uuid).value)
    {
      match IntendedCancelAction(uuid)
      case DoNothing =>
      case CloseOnly =>
        effects := effects + [CloseModal];
      case RequestCancellation(id) =>
        CancelMatchmaking(id, answer, refundOk);
    }

    /**
     * A click on the action button: nothing while the button is disabled
     * (no wager typed, or a request loading); otherwise `handleMatchmaking`.
     */
    method OnActionClick(transferOk: bool, post: PostOutcome)
      requires Valid()
      modifies this`matchmakingStatus, this`uuid, this`listening, this`effects
      ensures Valid()
      ensures !ActionEnabled(bid, old(matchmakingStatus)) ==>
        matchmakingStatus == old(matchmakingStatus) && uuid == old(uuid) &&
        listening == old(listening) && effects == old(effects)
      ensures ActionEnabled(bid, old(matchmakingStatus)) && !ValidateInput(bid, minBid) ==>
        matchmakingStatus == old(matchmakingStatus) && uuid == old(uuid) && listening == old(listening) &&
        effects == old(effects) + [Toast(ToastWarning, InvalidBid(Validate(bid, minBid).value))]
      ensures ActionEnabled(bid, old(matchmakingStatus)) && ValidateInput(bid, minBid) ==>
        |effects| > |old(effects)| && effects[|old(effects)|] == TransferToOwner(bid.value)
    {
      if ActionEnabled(bid, matchmakingStatus) {
        HandleMatchmaking(transferOk, post);
      }
    }

    /**
     * A render of the dialog.  `createToast` is a new closure on every
     * render and is a dependency of the stream effect, so every render
     * closes the previous stream and, while the uuid is truthy, opens a
     * new one, even after `onmessage` or `onerror` closed it.
     */
    method Render()
      requires Valid()
      modifies this`listening
      ensures Valid()
      ensures listening == Truthy(uuid)
    {
      listening := Truthy(uuid);
    }

    /**
     * The stream's `onmessage`: only a message carrying a truthy `match_id`
     * marks matchmaking successful, closes the stream and the dialog and
     * navigates to `/play/<match_id>`; every other message, and any message
     * when no stream is open, changes nothing.
     */
    method OnServerMessage(matchId: Option<string>)
      requires Valid()
      modifies this`matchmakingStatus, this`listening, this`effects
      ensures Valid()
      ensures old(listening) && Truthy(matchId) ==>
        && matchmakingStatus == Success && !listening
        && effects == old(effects) + [CloseModal, Toast(ToastSuccess, MatchFound), Navigate("/play/" + matchId.value)]
      ensures !(old(listening) && Truthy(matchId)) ==>
        matchmakingStatus == old(matchmakingStatus) && listening == old(listening) && effects == old(effects)
    {
      if listening && Truthy(matchId) {
        matchmakingStatus := Success;
        listening := false;
        effects := effects + [CloseModal, Toast(ToastSuccess, MatchFound), Navigate("/play/" + matchId.value)];
      }
    }

    /** The stream's `onerror`: an error toast, the stream and the dialog close; the matchmaking status is untouched. */
    method OnServerError()
      requires Valid()
      modifies this`listening, this`effects
      ensures Valid()
      ensures old(listening) ==> !listening && effects == old(effects) + [Toast(ToastError, OpponentFetchFailed), CloseModal]
      ensures !old(listening) ==> listening == old(listening) && effects == old(effects)
    {
      if listening {
        listening := false;
        effects := effects + [Toast(ToastError, OpponentFetchFailed), CloseModal];
      }
    }
  }

  /**
   * A found match navigates, the state change re-renders the dialog, the
   * stream re-opens, and a repeated `match_id` navigates a second time.
   */
  method RepeatedMatchIdNavigatesTwice(matchId: string) returns (log: seq<Effect>)
    requires matchId != ""
    ensures |log| == 9
    ensures log[5] == Navigate("/play/" + matchId) && log[8] == Navigate("/play/" + matchId)
  {
    var dialog := new MatchmakingDialog(10, 0.1, "0xAA");
    dialog.HandleBidInput(ValueField, 100);
    dialog.HandleMatchmaking(true, PostAnswered(Some("u-1")));
    dialog.OnServerMessage(Some(matchId));
    dialog.Render();
    dialog.OnServerMessage(Some(matchId));
    log := dialog.effects;
  }
}
