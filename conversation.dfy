/**
 * The conversation of main_bot.py: the ConversationHandler's states
 * (main_bot.py:31, 274-282), the pair buttons and their split
 * (main_bot.py:34-90, 145-161), the score check and the payment request
 * of `get_ball` (main_bot.py:163-199), the payment confirmation
 * (main_bot.py:201-232) and `cancel` (main_bot.py:263-264).
 *
 * Each handler is a step function from the per-user data
 * (`context.user_data`) and what the outside world supplies to the next
 * state, the new user data and the replies sent; `Session` holds that
 * data and applies the handlers as the ConversationHandler routes
 * updates to them.
 */
module Conversation {
  import opened Py
  import opened Text
  import opened Normalizer
  import opened Catalog
  import opened Eligibility
  import opened Ranking
  import opened Pairs
  import opened Transaction

  /** The conversation states; `Ended` is `ConversationHandler.END`, also the state before `/start`. */
  datatype State = Ended | SelectPair | GetBall | AwaitingPaymentCheck

  /** The keys of `context.user_data` the handlers write, each absent until written. */
  datatype UserData = UserData(
    fan1: Option<string>,
    fan2: Option<string>,
    ball: Option<real>,
    recommendations: Option<seq<Recommendation>>,
    merchantTransId: Option<string>)

  const NoUserData: UserData := UserData(None, None, None, None, None)

  /**
   * What the bot sends back, one value per `reply_text`, `edit_message_text`,
   * alert or `send_message`; `ChoosePair` is the keyboard of `PairButtons`.
   */
  datatype Reply =
    | ChoosePair
    | AskBall(pair: string)
    | PaymentNotConfigured
    | Checking
    | DatabaseNotFound
    | BelowMinimum(minScore: real)
    | PayToSee(merchantTransId: string, amount: nat)
    | TechnicalError
    | NoTransaction
    | PaymentAccepted
    | Results(ball: Option<real>, recommendations: seq<Recommendation>)
    | NotYetConfirmed(note: Json)
    | Cancelled

  /** What a handler leaves behind: the state it returns, the user data and the replies, in order. */
  datatype Step = Step(next: State, user: UserData, replies: seq<Reply>)

  /**
   * The inputs a handler reads from outside: the process environment, what
   * `load_data()` returns (`Null` when loading fails), the chat id, the
   * clock `int(time.time())`, and the JSON the payment gateway answers.
   */
  datatype World = World(env: map<string, string>, catalog: Json, chat: int, now: nat, gateway: Json)

  /** The updates the ConversationHandler tells apart; `value` is what `float(text)` gives for a text message. */
  datatype Event =
    | StartCommand
    | CancelCommand
    | OtherCommand
    | Callback(data: string)
    | Message(text: string, value: Option<real>)

  // ---- The handlers ----

  /** The environment variable names main_bot.py:25-28 read, written there as the literal strings below. */
  const PaymentSettings: seq<string> := ["79052", "43826", "1hXIYh3WSJlV", "AbituriyentINFO_bot"]

  /** `os.environ.get(name)` is truthy: present and not empty. */
  predicate Set(env: map<string, string>, name: string) {
    name in env && env[name] != ""
  }

  /** `all([CLICK_SERVICE_ID, CLICK_MERCHANT_ID, CLICK_SECRET_KEY, BOT_USERNAME])`. */
  predicate Configured(env: map<string, string>) {
    Set(env, PaymentSettings[0]) && Set(env, PaymentSettings[1]) && Set(env, PaymentSettings[2]) && Set(env, PaymentSettings[3])
  }

  /** `int(float("37000.00"))`, the sum the payment prompt asks for. */
  const Amount: nat := 37000

  /** `start`: the pair keyboard, then `SELECT_PAIR`; the user data stays as it was. */
  function StartStep(user: UserData): Step {
    Step(SelectPair, user, [ChoosePair])
  }

  /** `select_pair`: the split subjects are written to the user data, then `GET_BALL`. */
  function SelectPairStep(user: UserData, data: string): (r: Step)
    ensures r.next == GetBall
    ensures r.user == user.(fan1 := Some(PairOf(data).0), fan2 := Some(PairOf(data).1))
  {
    var (fan1, fan2) := PairOf(data);
    Step(GetBall, user.(fan1 := Some(fan1), fan2 := Some(fan2)), [AskBall(data)])
  }

  /** How far `get_ball` gets before line 182: the step that ends it there, or what it carries past the pre-check. */
  datatype Checked =
    | Stop(step: Step)
    | Pass(user: UserData, replies: seq<Reply>, fan1: string, fan2: string, ball: real)

  /**
   * main_bot.py:165-180: the payment settings, `float(text)`, the stored
   * ball, the catalog, and the minimum passing score. A missing subject,
   * non-numeric text or a pre-check that raises are caught at 197-199.
   */
  function PreCheck(user: UserData, value: Option<real>, world: World): (r: Checked)
    ensures r.Stop? ==> r.step.next == Ended
    ensures r.Pass? ==>
      && r.user == user.(ball := value) && value == Some(r.ball)
      && user.fan1 == Some(r.fan1) && user.fan2 == Some(r.fan2) && r.replies == [Checking]
  {
    if !Configured(world.env) then Stop(Step(Ended, user, [PaymentNotConfigured]))
    else if value.None? then Stop(Step(Ended, user, [TechnicalError]))
    else
      var ball := value.value;
      var u := user.(ball := Some(ball));
      if !Truthy(world.catalog) then Stop(Step(Ended, u, [Checking, DatabaseNotFound]))
      else if u.fan1.None? || u.fan2.None? then Stop(Step(Ended, u, [Checking, TechnicalError]))
      else
        match MinPassing(u.fan1.value, u.fan2.value, world.catalog)
        case Raised => Stop(Step(Ended, u, [Checking, TechnicalError]))
        case Ok(min) =>
          if min.Some? && ball < min.value then Stop(Step(Ended, u, [Checking, BelowMinimum(min.value)]))
          else Pass(u, [Checking], u.fan1.value, u.fan2.value, ball)
  }

  /**
   * `get_ball` as written: line 182 passes two arguments to the one-parameter
   * `find_recommendations`, the `TypeError` is caught at 197-199, and the
   * conversation ends with the technical-error reply.
   */
  function GetBallAsWritten(user: UserData, value: Option<real>, world: World): Step {
    match PreCheck(user, value, world)
    case Stop(s) => s
    case Pass(u, replies, _, _, _) => Step(Ended, u, replies + [TechnicalError])
  }

  /**
   * `get_ball` with line 182 calling `find_recommendations` on the pair, the
   * ball and the loaded catalog: the recommendations and the transaction id
   * are stored and the payment prompt sent, then `AWAITING_PAYMENT_CHECK`.
   */
  function GetBallStep(user: UserData, value: Option<real>, world: World): (r: Step)
    ensures r.next == Ended || r.next == AwaitingPaymentCheck
  {
    match PreCheck(user, value, world)
    case Stop(s) => s
    case Pass(u, replies, fan1, fan2, ball) =>
      match Recommend(fan1, fan2, ball, world.catalog)
      case Raised => Step(Ended, u, replies + [TechnicalError])
      case Ok(recs) =>
        var id := MerchantTransId(world.chat, world.now);
        Step(AwaitingPaymentCheck, u.(recommendations := Some(recs), merchantTransId := Some(id)), replies + [PayToSee(id, Amount)])
  }

  /** `f"{rec['kontrakt_miqdori']:,}"` formats numbers (and booleans) only; any other value raises. */
  predicate FeeFormattable(fee: Json) {
    fee.Num? || fee.Bool?
  }

  /** `show_final_results` can render every record of `recs`. */
  predicate Showable(recs: seq<Recommendation>) {
    forall k :: 0 <= k < |recs| ==> FeeFormattable(recs[k].fee)
  }

  /**
   * `handle_payment_check` run in state `current`: no transaction id ends
   * the conversation; a gateway status of 1 shows the stored results and
   * ends it; any other status leaves it waiting. A gateway answer that is
   * not a dict, or a fee the results cannot format, raises out of the
   * handler, and the ConversationHandler stays in `current`.
   */
  function PaymentCheckStep(current: State, user: UserData, gateway: Json): (r: Step)
    ensures r.user == user
  {
    var id := user.merchantTransId;
    if id.None? || id.value == "" then Step(Ended, user, [NoTransaction])
    else if !gateway.Obj? then Step(current, user, [])
    else if EqualsInt(Field(gateway, "status", Null), 1) then
      var recs := if user.recommendations.Some? then user.recommendations.value else [];
      if Showable(recs) then
        Step(Ended, user, [PaymentAccepted, Results(user.ball, recs)])
      else Step(current, user, [PaymentAccepted])
    else Step(AwaitingPaymentCheck, user, [NotYetConfirmed(Field(gateway, "status_note", Str("Noma`lum")))])
  }

  /** `cancel`. */
  function CancelStep(user: UserData): Step {
    Step(Ended, user, [Cancelled])
  }

  /**
   * The ConversationHandler of main_bot.py:274-282: with no conversation
   * only `/start` is heard; inside one, the current state's handler, then
   * the `/cancel` fallback; anything else is ignored.
   */
  function DispatchStep(state: State, user: UserData, ev: Event, world: World): Step {
    var ignored := Step(state, user, []);
    match ev
    case StartCommand => if state == Ended then StartStep(user) else ignored
    case CancelCommand => if state != Ended then CancelStep(user) else ignored
    case OtherCommand => ignored
    case Callback(data) =>
      if state == SelectPair then SelectPairStep(user, data)
      else if state == AwaitingPaymentCheck then PaymentCheckStep(state, user, world.gateway)
      else ignored
    case Message(_, value) => if state == GetBall then GetBallStep(user, value, world) else ignored
  }

  // ---- Properties of the handlers ----

  /** What each state holds in the user data: the pair once asked for the ball, and everything the payment check shows once waiting for payment. */
  predicate Consistent(state: State, user: UserData) {
    && (state == GetBall ==> user.fan1.Some? && user.fan2.Some?)
    && (state == AwaitingPaymentCheck ==>
          && user.fan1.Some? && user.fan2.Some? && user.ball.Some?
          && user.recommendations.Some? && |user.recommendations.value| <= 5
          && user.merchantTransId.Some? && ParseMerchantTransId(user.merchantTransId.value).Some?)
  }

  /** The states a state can move to on one update. */
  predicate Successor(state: State, next: State) {
    match state
    case Ended => next == Ended || next == SelectPair
    case SelectPair => next == SelectPair || next == GetBall || next == Ended
    case GetBall => next == GetBall || next == AwaitingPaymentCheck || next == Ended
    case AwaitingPaymentCheck => next == AwaitingPaymentCheck || next == Ended
  }

  /**
   * An update no handler of main_bot.py:274-282 listens for changes
   * nothing and sends nothing: `/start` inside a conversation, `/cancel`
   * outside one, any other command, a button press while a score is asked
   * for or outside a conversation, and a text message in any state but
   * `GET_BALL`.
   */
  lemma UnhandledEventsIgnored(state: State, user: UserData, ev: Event, world: World)
    ensures ev.StartCommand? && state != Ended ==> DispatchStep(state, user, ev, world) == Step(state, user, [])
    ensures ev.CancelCommand? && state == Ended ==> DispatchStep(state, user, ev, world) == Step(state, user, [])
    ensures ev.OtherCommand? ==> DispatchStep(state, user, ev, world) == Step(state, user, [])
    ensures ev.Callback? && (state == GetBall || state == Ended) ==> DispatchStep(state, user, ev, world) == Step(state, user, [])
    ensures ev.Message? && state != GetBall ==> DispatchStep(state, user, ev, world) == Step(state, user, [])
  {
  }

  /** Once the pre-check passes, `get_ball` stores the recommendations and a readable transaction id and awaits payment. */
  lemma PassedPreCheck(user: UserData, value: Option<real>, world: World)
    requires PreCheck(user, value, world).Pass?
    ensures var c := PreCheck(user, value, world);
      var recs := Recommend(c.fan1, c.fan2, c.ball, world.catalog);
      var id := MerchantTransId(world.chat, world.now);
      var stored := c.user.(recommendations := Some(recs.value), merchantTransId := Some(id));
      && recs.Ok? && |recs.value| <= 5 && ParseMerchantTransId(id).Some?
      && GetBallStep(user, value, world) == Step(AwaitingPaymentCheck, stored, c.replies + [PayToSee(id, Amount)])
      && Consistent(AwaitingPaymentCheck, stored)
  {
    var c := PreCheck(user, value, world);
    RecommendAfterPreCheck(c.fan1, c.fan2, c.ball, world.catalog);
    MerchantTransIdRoundTrip(world.chat, world.now);
  }

  /** Every update keeps the user data consistent with the state, and moves only along the diagram of main_bot.py:274-282. */
  lemma DispatchPreservesConsistency(state: State, user: UserData, ev: Event, world: World)
    requires Consistent(state, user)
    ensures var s := DispatchStep(state, user, ev, world);
      Consistent(s.next, s.user) && Successor(state, s.next)
  {
    if ev.Message? && state == GetBall {
      var s := GetBallStep(user, ev.value, world);
      if s.next == AwaitingPaymentCheck {
        GetBallAwaitsPayment(user, ev.value, world);
        MerchantTransIdRoundTrip(world.chat, world.now);
      }
    }
  }

  /** `get_ball` waits for payment exactly when every check of the pre-check passes (the recommendations then always can be computed); otherwise it ends. */
  lemma GetBallReachesPayment(user: UserData, value: Option<real>, world: World)
    ensures GetBallStep(user, value, world).next == AwaitingPaymentCheck <==>
      && Configured(world.env) && value.Some? && Truthy(world.catalog)
      && user.fan1.Some? && user.fan2.Some?
      && MinPassing(user.fan1.value, user.fan2.value, world.catalog).Ok?
      && (var min := MinPassing(user.fan1.value, user.fan2.value, world.catalog).value;
          min.None? || value.value >= min.value)
  {
    if Configured(world.env) && value.Some? && user.fan1.Some? && user.fan2.Some?
       && MinPassing(user.fan1.value, user.fan2.value, world.catalog).Ok? {
      RecommendAfterPreCheck(user.fan1.value, user.fan2.value, value.value, world.catalog);
    }
  }

  /**
   * On the way to payment `get_ball` stores the ball, the recommendations
   * for the pair and the ball, and `"abt-<chat>-<time>"`, and asks for
   * 37000 so'm — also when no program gave a minimum score.
   */
  lemma GetBallAwaitsPayment(user: UserData, value: Option<real>, world: World)
    requires GetBallStep(user, value, world).next == AwaitingPaymentCheck
    ensures var s := GetBallStep(user, value, world);
      var id := MerchantTransId(world.chat, world.now);
      && value.Some? && user.fan1.Some? && user.fan2.Some?
      && s.user == user.(ball := value,
                         recommendations := Some(Recommend(user.fan1.value, user.fan2.value, value.value, world.catalog).value),
                         merchantTransId := Some(id))
      && s.replies == [Checking, PayToSee(id, Amount)]
      && |s.user.recommendations.value| <= 5
  {
  }

  /** Missing payment settings end the conversation before the text is read; nothing is stored. */
  lemma UnconfiguredEnds(user: UserData, value: Option<real>, world: World)
    requires !Configured(world.env)
    ensures GetBallStep(user, value, world) == Step(Ended, user, [PaymentNotConfigured])
  {
  }

  /** Text that is not a number ends the conversation with the technical-error reply, before the ball is stored. */
  lemma NonNumericEnds(user: UserData, world: World)
    requires Configured(world.env)
    ensures GetBallStep(user, None, world) == Step(Ended, user, [TechnicalError])
  {
  }

  /** A missing or empty catalog ends the conversation, with the ball already stored. */
  lemma NoCatalogEnds(user: UserData, ball: real, world: World)
    requires Configured(world.env) && !Truthy(world.catalog)
    ensures GetBallStep(user, Some(ball), world) == Step(Ended, user.(ball := Some(ball)), [Checking, DatabaseNotFound])
  {
  }

  /** A ball below the pre-check's minimum ends the conversation, quoting that minimum. */
  lemma BelowMinimumEnds(user: UserData, ball: real, world: World, min: real)
    requires Configured(world.env) && Truthy(world.catalog) && user.fan1.Some? && user.fan2.Some?
    requires MinPassing(user.fan1.value, user.fan2.value, world.catalog) == Ok(Some(min)) && ball < min
    ensures GetBallStep(user, Some(ball), world) == Step(Ended, user.(ball := Some(ball)), [Checking, BelowMinimum(min)])
  {
  }

  /** As written, `get_ball` never reaches the payment state: wherever the pre-check passes it ends with the technical error instead. */
  lemma AsWrittenNeverAwaitsPayment(user: UserData, value: Option<real>, world: World)
    ensures GetBallAsWritten(user, value, world).next == Ended
    ensures PreCheck(user, value, world).Stop? ==> GetBallAsWritten(user, value, world) == GetBallStep(user, value, world)
    ensures PreCheck(user, value, world).Pass? ==> GetBallAsWritten(user, value, world).replies == [Checking, TechnicalError]
  {
  }

  /** A catalog whose `"otmlar"` list is empty gives no minimum and no recommendation. */
  lemma NoInstitutions(fan1: string, fan2: string, ball: real)
    ensures MinPassing(fan1, fan2, Obj([("otmlar", Arr([]))])) == Ok(None)
    ensures Recommend(fan1, fan2, ball, Obj([("otmlar", Arr([]))])) == Ok([])
  {
    var data := Obj([("otmlar", Arr([]))]);
    assert Institutions(data) == Ok([]);
    assert Entries(data) == Ok([]);
  }

  /**
   * A configured bot, a chosen pair, any ball and a catalog without
   * institutions: intended, the payment prompt; as written, the technical
   * error.
   */
  lemma ArityMismatchExample(user: UserData, ball: real, world: World)
    requires Configured(world.env) && user.fan1.Some? && user.fan2.Some?
    requires world.catalog == Obj([("otmlar", Arr([]))])
    ensures GetBallAsWritten(user, Some(ball), world).replies == [Checking, TechnicalError]
    ensures GetBallStep(user, Some(ball), world).next == AwaitingPaymentCheck
  {
    var fan1, fan2 := user.fan1.value, user.fan2.value;
    NoInstitutions(fan1, fan2, ball);
    assert MinPassing(fan1, fan2, world.catalog) == Ok(None);
    var u := user.(ball := Some(ball));
    assert PreCheck(user, Some(ball), world) == Pass(u, [Checking], fan1, fan2, ball);
    AsWrittenNeverAwaitsPayment(user, Some(ball), world);
    assert Recommend(fan1, fan2, ball, world.catalog) == Ok([]);
  }

  /**
   * The payment check ends the conversation exactly when there is no
   * transaction id, or when the gateway confirms (status 1) and the results
   * can be shown; a status other than 1 keeps waiting, with the gateway's
   * note (`"Noma`lum"` when it gives none).
   */
  lemma PaymentCheckOutcome(user: UserData, gateway: Json)
    ensures var s := PaymentCheckStep(AwaitingPaymentCheck, user, gateway);
      var noId := user.merchantTransId.None? || user.merchantTransId.value == "";
      var recs := if user.recommendations.Some? then user.recommendations.value else [];
      var shown := Showable(recs);
      && (s.next == Ended <==> noId || (gateway.Obj? && EqualsInt(Field(gateway, "status", Null), 1) && shown))
      && (s.next == AwaitingPaymentCheck <==> !(noId || (gateway.Obj? && EqualsInt(Field(gateway, "status", Null), 1) && shown)))
      && (noId ==> s.replies == [NoTransaction])
      && (!noId && s.next == Ended ==> s.replies == [PaymentAccepted, Results(user.ball, recs)])
      && (!noId && gateway.Obj? && !EqualsInt(Field(gateway, "status", Null), 1) ==>
            s.replies == [NotYetConfirmed(Field(gateway, "status_note", Str("Noma`lum")))])
  {
  }

  /** `/cancel` ends any running conversation and leaves the user data alone. */
  lemma CancelEnds(state: State, user: UserData, world: World)
    requires state != Ended
    ensures DispatchStep(state, user, CancelCommand, world) == Step(Ended, user, [Cancelled])
  {
  }

  /**
   * From the score to the results: when `get_ball` moves to the payment
   * state and the gateway then confirms, the results shown are the ball and
   * the recommendations computed for the user's pair on that catalog.
   */
  lemma PaidResultsAreTheRecommendations(user: UserData, value: Option<real>, world: World, gateway: Json)
    requires GetBallStep(user, value, world).next == AwaitingPaymentCheck
    requires gateway.Obj? && EqualsInt(Field(gateway, "status", Null), 1)
    requires Showable(GetBallStep(user, value, world).user.recommendations.value)
    ensures var s := GetBallStep(user, value, world);
      var t := PaymentCheckStep(AwaitingPaymentCheck, s.user, gateway);
      && t.next == Ended
      && t.replies == [PaymentAccepted, Results(value, Recommend(user.fan1.value, user.fan2.value, value.value, world.catalog).value)]
  {
    GetBallAwaitsPayment(user, value, world);
  }

  // ---- The session ----

  /** One user's chat with the bot: the conversation state, `context.user_data`, and every reply sent so far. */
  class Session {
    var state: State
    var user: UserData
    var sent: seq<Reply>

    ghost predicate Valid()
      reads this
    {
      Consistent(state, user)
    }

    constructor ()
      ensures state == Ended && user == NoUserData && sent == []
      ensures Valid()
    {
      state := Ended;
      user := NoUserData;
      sent := [];
    }

    /** `start`. */
    method Start()
      requires Valid() && state == Ended
      modifies this
      ensures state == State.SelectPair && user == old(user) && sent == old(sent) + [ChoosePair]
      ensures Valid()
    {
      sent := sent + [ChoosePair];
      state := State.SelectPair;
    }

    /** `select_pair` on the pressed button's callback data. */
    method SelectPair(data: string)
      requires Valid() && state == State.SelectPair
      modifies this
      ensures var s := SelectPairStep(old(user), data);
        state == s.next && user == s.user && sent == old(sent) + s.replies
      ensures Valid()
    {
      var pieces := Split(data, " - ");
      var fan1 := Strip(pieces[0]);
      var fan2 := if |pieces| > 1 then Strip(pieces[1]) else fan1;
      user := user.(fan1 := Some(fan1));
      user := user.(fan2 := Some(fan2));
      sent := sent + [AskBall(data)];
      state := State.GetBall;
    }

    /** The tests of main_bot.py:165-180 on the session's data, in the order `get_ball` makes them. */
    method CheckBall(value: Option<real>, world: World) returns (c: Checked)
      ensures c == PreCheck(user, value, world)
    {
      if !Configured(world.env) {
        return Stop(Step(Ended, user, [PaymentNotConfigured]));
      }
      if value.None? {
        return Stop(Step(Ended, user, [TechnicalError]));
      }
      var ball := value.value;
      var u := user.(ball := Some(ball));
      var data := world.catalog;
      if !Truthy(data) {
        return Stop(Step(Ended, u, [Checking, DatabaseNotFound]));
      }
      if u.fan1.None? || u.fan2.None? {
        return Stop(Step(Ended, u, [Checking, TechnicalError]));
      }
      var fan1, fan2 := u.fan1.value, u.fan2.value;
      var min := MinimumPassingScore(fan1, fan2, data);
      if min.Raised? {
        return Stop(Step(Ended, u, [Checking, TechnicalError]));
      }
      if min.value.Some? && ball < min.value.value {
        return Stop(Step(Ended, u, [Checking, BelowMinimum(min.value.value)]));
      }
      return Pass(u, [Checking], fan1, fan2, ball);
    }

    /** `get_ball` on the message's value, with line 182 calling `find_recommendations` on the pair, the ball and the catalog. */
    method GetBall(value: Option<real>, world: World)
      requires Valid() && state == State.GetBall
      modifies this
      ensures var s := GetBallStep(old(user), value, world);
        state == s.next && user == s.user && sent == old(sent) + s.replies
      ensures Valid()
    {
      var checked := CheckBall(value, world);
      if checked.Stop? {
        state, user, sent := checked.step.next, checked.step.user, sent + checked.step.replies;
        return;
      }
      PassedPreCheck(user, value, world);
      var recommendations := FindRecommendations(checked.fan1, checked.fan2, checked.ball, world.catalog);
      var id := MerchantTransId(world.chat, world.now);
      user := checked.user.(recommendations := Some(recommendations.value), merchantTransId := Some(id));
      sent := sent + checked.replies + [PayToSee(id, Amount)];
      state := AwaitingPaymentCheck;
    }

    /** `handle_payment_check` on the gateway's answer; in a consistent session the transaction id is always set, and consistency is kept. */
    method HandlePaymentCheck(gateway: Json)
      requires state == AwaitingPaymentCheck
      modifies this
      ensures var s := PaymentCheckStep(old(state), old(user), gateway);
        state == s.next && user == s.user && sent == old(sent) + s.replies
      ensures old(Valid()) ==> Valid()
    {
      var id := user.merchantTransId;
      if id.None? || id.value == "" {
        sent := sent + [NoTransaction];
        state := Ended;
        return;
      }
      if !gateway.Obj? {
        return;
      }
      if EqualsInt(Field(gateway, "status", Null), 1) {
        sent := sent + [PaymentAccepted];
        var recs := if user.recommendations.Some? then user.recommendations.value else [];
        var k := 0;
        while k < |recs|
          invariant 0 <= k <= |recs|
          invariant forall i :: 0 <= i < k ==> FeeFormattable(recs[i].fee)
        {
          if !FeeFormattable(recs[k].fee) {
            return;
          }
          k := k + 1;
        }
        sent := sent + [Results(user.ball, recs)];
        state := Ended;
      } else {
        sent := sent + [NotYetConfirmed(Field(gateway, "status_note", Str("Noma`lum")))];
        state := AwaitingPaymentCheck;
      }
    }

    /** `cancel`. */
    method Cancel()
      requires Valid() && state != Ended
      modifies this
      ensures state == Ended && user == old(user) && sent == old(sent) + [Cancelled]
      ensures Valid()
    {
      sent := sent + [Cancelled];
      state := Ended;
    }

    /** One update routed as the ConversationHandler routes it. */
    method Dispatch(ev: Event, world: World)
      requires Valid()
      modifies this
      ensures var s := DispatchStep(old(state), old(user), ev, world);
        state == s.next && user == s.user && sent == old(sent) + s.replies
      ensures Valid()
    {
      DispatchPreservesConsistency(state, user, ev, world);
      match ev
      case StartCommand =>
        if state == Ended {
          Start();
        }
      case CancelCommand =>
        if state != Ended {
          Cancel();
        }
      case OtherCommand =>
      case Callback(data) =>
        if state == State.SelectPair {
          SelectPair(data);
        } else if state == AwaitingPaymentCheck {
          HandlePaymentCheck(world.gateway);
        }
      case Message(_, value) =>
        if state == State.GetBall {
          GetBall(value, world);
        }
    }
  }
}
