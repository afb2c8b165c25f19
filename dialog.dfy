/**
 * The dialog engine of dialog.js: a `Dialog` asks a fixed list of questions one after
 * another over a chat switchboard, records what the replies say in its `data` record and
 * calls the user's callback once when the questions are over or one of them fails.
 *
 * The switchboard (`switchBoard.startDialog`, `addChoice`, message dispatch) is foreign
 * code. The model assumes of it what dialog.js relies on: the bindings a question
 * registers are kept in registration order; a reply is dispatched to the FIRST binding
 * whose pattern matches it, after the registered bindings are cleared; a reply no binding
 * matches changes nothing.
 */
module DialogEngine {
  import opened Wrappers
  import opened Patterns
  import opened Series

  /** The user of the message that starts the dialog (`msg.envelope.user`), opaque. */
  type User = string

  /** The value `new Date()` produces, opaque. */
  type Timestamp = nat

  /** The message that starts the dialog. */
  datatype Message = Message(user: User, text: string)

  /** One entry of `answer.options`: the pattern (`match`), the reply sent when it
      matches (`response`) and whether matching it is a valid answer (`valid`). */
  datatype ChoiceOption = ChoiceOption(pattern: string, response: string, valid: bool)

  /** `answer.type`, with `answer.options` for a choice; any other type string
      registers nothing. */
  datatype AnswerType = Text | Choice(options: seq<ChoiceOption>) | Attachment | Unrecognised(name: string)

  /** One entry of the options array: `question` (here `prompt`), `answer`, `required`
      and `error`. */
  datatype Question = Question(prompt: string, answer: AnswerType, required: bool, error: string)

  /** `data.source`: empty until a question is asked, then the user. */
  datatype Source = NoSource | FromUser(user: User)

  /** `this.data`; its `type` field is called `kind` here. */
  datatype Data = Data(source: Source, dateTime: Option<Timestamp>, kind: string, description: string, attachment: string)

  const InitialData := Data(NoSource, None, "private", "", "")

  /** What the skip binding of an attachment question replies. */
  const SkipReply := "Ok. we are skipping this section!!"

  /** The errors a question can finish with. */
  datatype DialogError = InvalidResponse | CannotContinue
  {
    function ErrorText(): string
    {
      match this
      case InvalidResponse => "User provided an invalid response"
      case CannotContinue => "Hubot cannot continue this conversation"
    }
  }

  /** The closures that `_invokeDialog` hands to `addChoice`. */
  datatype Handler =
    | OnOption(option: ChoiceOption)              // an option of a choice question
    | OnUnmatched(error: string, required: bool)  // the catch-all of a choice question
    | OnText                                      // the text question's binding
    | OnSkip                                      // the attachment question's binding

  datatype Binding = Binding(pattern: Pattern, handler: Handler)

  /** What firing a handler does: the replies it sends, the data record it leaves and
      what it passes to `done`. */
  datatype Effect = Effect(replies: seq<string>, data: Data, result: Done<DialogError>)

  /** A step of the series `_go` builds. */
  datatype Step = Ask(question: Question) | StampTime

  /** `callback` as passed to the constructor. */
  datatype CallbackArg = NoCallback | OtherValue | CallbackFunction(id: nat)

  /** The callback the dialog keeps: the caller's function, or a no-op. */
  datatype Callback = NoOp | UserCallback(id: nat)

  /** `messageOptions` as passed to the constructor. */
  datatype OptionsArg = QuestionList(questions: seq<Question>) | FunctionValue | NullValue

  /** The constructor's exceptions: the guard's `Error('Provide the dynamic message options
      array')`, and the `TypeError` of reading `length` of `null` or `undefined`. */
  datatype ConstructError = MissingOptionsArray | TypeError
  {
    /** The exception's message; a `TypeError`'s message is chosen by the JavaScript engine. */
    function ErrorText(): Option<string>
    {
      match this
      case MissingOptionsArray => Some("Provide the dynamic message options array")
      case TypeError => None
    }
  }

  datatype Setup = Setup(questions: seq<Question>, callback: Callback)

  /** One call of the user's callback with `(err, msg, self)`; the dialog is the one
      that records the call. */
  datatype Notification = Notification(callback: Callback, error: Option<DialogError>, msg: Message)

  /** The constructor's guard on `messageOptions` and the callback default; the options
      themselves go on unchanged. */
  function Guard(options: OptionsArg, callback: CallbackArg): (r: Result<Callback, ConstructError>)
    ensures r.Failure? <==> options.FunctionValue?
    ensures r.Failure? ==>
      r.error == MissingOptionsArray && r.error.ErrorText() == Some("Provide the dynamic message options array")
    ensures r.Success? ==> (r.value.UserCallback? <==> callback.CallbackFunction?)
    ensures r.Success? && callback.CallbackFunction? ==> r.value.id == callback.id
  {
    if options.FunctionValue? then Failure(MissingOptionsArray)
    else if callback.CallbackFunction? then Success(UserCallback(callback.id))
    else Success(NoOp)
  }

  /** `self.messageOptions.length` and the indexing in `_go`, which runs only after the
      guard has rejected a function. */
  function ReadQuestions(options: OptionsArg): (r: Result<seq<Question>, ConstructError>)
    requires !options.FunctionValue?
    ensures r.Failure? <==> options.NullValue?
    ensures r.Failure? ==> r.error == TypeError && r.error.ErrorText() == None
    ensures r.Success? ==> r.value == options.questions
  {
    match options
    case NullValue => Failure(TypeError)
    case QuestionList(questions) => Success(questions)
  }

  /** Everything that can make `new Dialog(...)` throw, in the order it happens: the guard,
      then the `length` read of `_go`. */
  function CheckArguments(options: OptionsArg, callback: CallbackArg): (r: Result<Setup, ConstructError>)
    ensures r.Success? <==> options.QuestionList?
    ensures options.FunctionValue? ==> r == Failure(MissingOptionsArray)
    ensures options.NullValue? ==> r == Failure(TypeError)
    ensures r == Failure(TypeError) ==> Guard(options, callback).Success?
    ensures r.Failure? ==> (r.error == MissingOptionsArray <==> Guard(options, callback).Failure?)
    ensures r.Success? ==> r.value.questions == options.questions
    ensures r.Success? ==> (r.value.callback.UserCallback? <==> callback.CallbackFunction?)
    ensures r.Success? && callback.CallbackFunction? ==> r.value.callback.id == callback.id
  {
    match Guard(options, callback)
    case Failure(e) => Failure(e)
    case Success(kept) =>
      match ReadQuestions(options)
      case Failure(e) => Failure(e)
      case Success(questions) => Success(Setup(questions, kept))
  }

  function OptionBinding(option: ChoiceOption): Binding
  {
    Binding(OptionPattern(option.pattern), OnOption(option))
  }

  function CatchAllBinding(error: string, required: bool): Binding
  {
    Binding(AnyText, OnUnmatched(error, required))
  }

  /** The bindings the loop of a choice question registers: each option followed by a
      catch-all. */
  function ChoiceBindings(options: seq<ChoiceOption>, error: string, required: bool): (r: seq<Binding>)
    ensures |r| == 2 * |options|
    ensures forall i :: 0 <= i < |options| ==>
      r[2 * i] == OptionBinding(options[i]) && r[2 * i + 1] == CatchAllBinding(error, required)
    decreases |options|
  {
    if options == [] then []
    else
      ChoiceBindings(options[..|options| - 1], error, required)
        + [OptionBinding(options[|options| - 1]), CatchAllBinding(error, required)]
  }

  /** The bindings `_invokeDialog` registers for a question. */
  function QuestionBindings(q: Question): (r: seq<Binding>)
    ensures q.answer.Choice? ==> |r| == 2 * |q.answer.options|
    ensures q.answer.Text? ==> r == [Binding(NotBlank, OnText)]
    ensures q.answer.Attachment? ==> r == [Binding(SkipWord, OnSkip)]
    ensures q.answer.Unrecognised? ==> r == []
  {
    match q.answer
    case Choice(options) => ChoiceBindings(options, q.error, q.required)
    case Text => [Binding(NotBlank, OnText)]
    case Attachment => [Binding(SkipWord, OnSkip)]
    case Unrecognised(_) => []
  }

  /** The switchboard's dispatch rule (assumed): the first binding whose pattern matches. */
  function FirstMatch(bindings: seq<Binding>, text: string, rx: OptionMatcher): (r: Option<nat>)
    ensures r.Some? ==>
      && r.value < |bindings|
      && Matches(bindings[r.value].pattern, text, rx)
      && forall j :: 0 <= j < r.value ==> !Matches(bindings[j].pattern, text, rx)
    ensures r.None? ==> forall j :: 0 <= j < |bindings| ==> !Matches(bindings[j].pattern, text, rx)
    decreases |bindings|
  {
    if bindings == [] then None
    else if Matches(bindings[0].pattern, text, rx) then Some(0)
    else match FirstMatch(bindings[1..], text, rx)
      case None => None
      case Some(k) => Some(k + 1)
  }

  /** What a handler does when it fires on reply `text` with data record `d`. */
  function HandlerEffect(h: Handler, text: string, d: Data): (e: Effect)
    ensures e.data.source == d.source && e.data.dateTime == d.dateTime && e.data.attachment == d.attachment
    ensures h.OnOption? ==>
      && e.replies == [h.option.response]
      && e.data == d.(kind := h.option.pattern)
      && (e.result.Failed? <==> !h.option.valid)
    ensures h.OnUnmatched? ==>
      && e.replies == [h.error] && e.data == d
      && (e.result.Failed? <==> h.required)
    ensures h.OnText? ==> e.replies == [] && e.data == d.(description := text) && e.result.Succeeded?
    ensures h.OnSkip? ==> e.replies == [SkipReply] && e.data == d && e.result.Succeeded?
    ensures e.result.Failed? ==>
      e.result.error.ErrorText() ==
        if h.OnOption? then "User provided an invalid response"
        else "Hubot cannot continue this conversation"
  {
    match h
    case OnOption(option) =>
      Effect([option.response], d.(kind := option.pattern),
             if option.valid then Succeeded else Failed(InvalidResponse))
    case OnUnmatched(error, required) =>
      Effect([error], d, if required then Failed(CannotContinue) else Succeeded)
    case OnText =>
      Effect([], d.(description := text), Succeeded)
    case OnSkip =>
      Effect([SkipReply], d, Succeeded)
  }

  /** What reply `text` does to question `q` while `q` waits: nothing if no binding
      matches, otherwise the effect of the first binding that does. */
  function Answer(q: Question, text: string, rx: OptionMatcher, d: Data): Option<Effect>
  {
    var bindings := QuestionBindings(q);
    match FirstMatch(bindings, text, rx)
    case None => None
    case Some(k) => Some(HandlerEffect(bindings[k].handler, text, d))
  }

  /** `kind` is the pattern of the first option of choice question `q`. */
  predicate OffersFirst(q: Question, kind: string)
  {
    q.answer.Choice? && |q.answer.options| > 0 && q.answer.options[0].pattern == kind
  }

  /** Under first-match only the first option of a choice question can ever fire: the
      catch-all registered right after it matches every reply. */
  lemma ChoiceDispatch(q: Question, text: string, rx: OptionMatcher)
    requires q.answer.Choice? && |q.answer.options| > 0
    ensures var m := FirstMatch(QuestionBindings(q), text, rx);
      && m.Some? && m.value < 2
      && (m.value == 0 <==> rx(q.answer.options[0].pattern, text))
  {
    var bindings := QuestionBindings(q);
    assert bindings[0] == OptionBinding(q.answer.options[0]);
    assert bindings[1] == CatchAllBinding(q.error, q.required);
  }

  /** A reply to a choice question with options: if the first option's pattern matches,
      its response is sent, `type` becomes the option's pattern and the question fails
      exactly when the option is not valid; otherwise the question's error text is sent,
      the data is left alone and the question fails exactly when it is required. */
  lemma ChoiceAnswer(q: Question, text: string, rx: OptionMatcher, d: Data)
    requires q.answer.Choice? && |q.answer.options| > 0
    ensures var first := q.answer.options[0];
      Answer(q, text, rx, d) ==
        if rx(first.pattern, text) then
          Some(Effect([first.response], d.(kind := first.pattern),
                      if first.valid then Succeeded else Failed(InvalidResponse)))
        else
          Some(Effect([q.error], d, if q.required then Failed(CannotContinue) else Succeeded))
    ensures var a := Answer(q, text, rx, d);
      a.Some? && a.value.result.Failed? ==>
        a.value.result.error.ErrorText() ==
          if rx(q.answer.options[0].pattern, text) then "User provided an invalid response"
          else "Hubot cannot continue this conversation"
  {
    ChoiceDispatch(q, text, rx);
    var bindings := QuestionBindings(q);
    assert bindings[0] == OptionBinding(q.answer.options[0]);
    assert bindings[1] == CatchAllBinding(q.error, q.required);
  }

  /** A choice question without options registers nothing, so no reply moves it on. */
  lemma ChoiceWithoutOptions(q: Question, text: string, rx: OptionMatcher, d: Data)
    requires q.answer.Choice? && q.answer.options == []
    ensures Answer(q, text, rx, d) == None
  {
  }

  /** A text question takes every reply its pattern accepts, stores the raw text in
      `description` and succeeds; no other reply does anything. */
  lemma TextAnswer(q: Question, text: string, rx: OptionMatcher, d: Data)
    requires q.answer.Text?
    ensures Answer(q, text, rx, d) ==
      if NotBlankMatches(text) then Some(Effect([], d.(description := text), Succeeded)) else None
    ensures Answer(q, text, rx, d).Some? ==> !IsBlank(text)
  {
  }

  /** An attachment question only reacts to `skip`: it sends the skip reply, keeps the
      data and succeeds. */
  lemma AttachmentAnswer(q: Question, text: string, rx: OptionMatcher, d: Data)
    requires q.answer.Attachment?
    ensures Answer(q, text, rx, d) ==
      if ContainsSkip(text) then Some(Effect([SkipReply], d, Succeeded)) else None
  {
  }

  /** A question of any other type never reacts. */
  lemma UnrecognisedAnswer(q: Question, text: string, rx: OptionMatcher, d: Data)
    requires q.answer.Unrecognised?
    ensures Answer(q, text, rx, d) == None
  {
  }

  /** Whatever question a reply answers, `source`, `dateTime` and `attachment` stay as
      they were, `type` can only become the first option's pattern of that question,
      `description` can only become a non-blank reply, and only a choice question fails. */
  lemma {:induction false} AnswerChanges(q: Question, text: string, rx: OptionMatcher, d: Data)
    ensures var a := Answer(q, text, rx, d);
      a.Some? ==>
        && a.value.data.source == d.source
        && a.value.data.dateTime == d.dateTime
        && a.value.data.attachment == d.attachment
        && (a.value.data.kind == d.kind || OffersFirst(q, a.value.data.kind))
        && (a.value.data.description == d.description || !IsBlank(a.value.data.description))
        && (a.value.result.Failed? ==> q.answer.Choice?)
  {
    match q.answer
    case Choice(options) =>
      if |options| > 0 { ChoiceAnswer(q, text, rx, d); }
    case Text =>
      TextAnswer(q, text, rx, d);
    case Attachment =>
      AttachmentAnswer(q, text, rx, d);
    case Unrecognised(_) =>
  }

  /** `new Dialog(switchBoard, msg, messageOptions, callback)`: the guards, then the
      constructor proper. */
  method NewDialog(msg: Message, options: OptionsArg, callback: CallbackArg, optionMatches: OptionMatcher, now: Timestamp)
    returns (r: Result<Dialog, ConstructError>)
    ensures r.Failure? <==> CheckArguments(options, callback).Failure?
    ensures r.Failure? ==> r.error == CheckArguments(options, callback).error
    ensures r.Success? ==>
      && fresh(r.value) && r.value.Valid()
      && r.value.msg == msg && r.value.optionMatches == optionMatches
      && r.value.questions == options.questions
      && r.value.callback == CheckArguments(options, callback).value.callback
      && r.value.Started(now)
  {
    var checked := CheckArguments(options, callback);
    if checked.Failure? {
      return Failure(checked.error);
    }
    var d := new Dialog(msg, checked.value.questions, checked.value.callback, optionMatches, now);
    return Success(d);
  }

  /** A dialog together with the switchboard dialog it registers its bindings on. */
  class Dialog {
    const msg: Message
    const questions: seq<Question>
    const callback: Callback
    const optionMatches: OptionMatcher

    /** `this.data`. */
    var data: Data
    /** Every reply sent to the user, in order. */
    var outbox: seq<string>
    /** The bindings registered on the switchboard dialog, in registration order. */
    var bindings: seq<Binding>
    /** The series `_go` runs: one step per question, then the time stamp. */
    var steps: seq<Step>
    /** The step the series is running or ended at. */
    var position: nat
    var status: Status<DialogError>
    /** The calls of the user's callback. */
    var notifications: seq<Notification>
    /** What each step that finished passed to `done`, in order. */
    ghost var results: seq<Done<DialogError>>

    /** `steps` is what `_go` builds. */
    ghost predicate StepsBuilt()
      reads this
    {
      && |steps| == |questions| + 1
      && (forall i :: 0 <= i < |questions| ==> steps[i] == Ask(questions[i]))
      && steps[|questions|] == StampTime
    }

    /** The facts about `data` every dialog keeps while question `position` or a later
        step is the next to run. */
    ghost predicate DataInvariant()
      reads this
    {
      && data.attachment == ""
      && (data.kind == InitialData.kind || exists i :: 0 <= i < |questions| && OffersFirst(questions[i], data.kind))
      && (data.description == "" || !IsBlank(data.description))
    }

    ghost predicate Valid()
      reads this
    {
      && StepsBuilt()
      && position < |steps|
      && |results| == (if status.Running? then position else position + 1)
      && status == Outcome(results, |steps|)
      && AllSucceeded(results[..position])
      && (status.Running? ==>
            && position < |questions|
            && bindings == QuestionBindings(questions[position])
            && notifications == [])
      && (status.Ended? ==>
            && bindings == []
            && notifications == [Notification(callback, status.error, msg)])
      && (status.Ended? && status.error.Some? ==> position < |questions|)
      && DataInvariant()
      && data.source == (if |questions| == 0 then NoSource else FromUser(msg.user))
      && (data.dateTime.Some? <==> status == Ended(None))
    }

    /** The state right before the series calls step `position`. */
    ghost predicate ReadyForStep()
      reads this
    {
      && StepsBuilt()
      && position < |steps|
      && status == Running
      && |results| == position
      && AllSucceeded(results)
      && bindings == []
      && notifications == []
      && DataInvariant()
      && data.source == (if position == 0 then NoSource else FromUser(msg.user))
      && data.dateTime == None
    }

    /** The state the constructor leaves: the first question asked, or, with no
        questions, the dialog already over. */
    ghost predicate Started(now: Timestamp)
      reads this
    {
      if |questions| == 0 then
        && status == Ended(None) && position == 0
        && data == InitialData.(dateTime := Some(now))
        && outbox == [] && bindings == []
        && notifications == [Notification(callback, None, msg)]
      else
        && status == Running && position == 0
        && data == InitialData.(source := FromUser(msg.user))
        && outbox == [questions[0].prompt]
        && bindings == QuestionBindings(questions[0])
        && notifications == []
    }

    /** What reply `text` would do to the question now waiting, if any. */
    ghost function Pending(text: string): Option<Effect>
      reads this
    {
      if status.Running? && position < |questions| then
        Answer(questions[position], text, optionMatches, data)
      else None
    }

    /** The constructor after its guards: record the arguments, initialise `data` and
        start the series. */
    constructor (msg: Message, questions: seq<Question>, callback: Callback, optionMatches: OptionMatcher, now: Timestamp)
      ensures Valid()
      ensures this.msg == msg && this.questions == questions
      ensures this.callback == callback && this.optionMatches == optionMatches
      ensures Started(now)
    {
      this.msg := msg;
      this.questions := questions;
      this.callback := callback;
      this.optionMatches := optionMatches;
      data := InitialData;
      outbox := [];
      bindings := [];
      steps := [];
      position := 0;
      status := Running;
      notifications := [];
      results := [];
      new;
      Go(now);
    }

    /** `fetch`: the data record. */
    function Fetch(): (d: Data)
      reads this
      requires Valid()
      ensures d == data
      ensures d.attachment == ""
      ensures d.dateTime.Some? <==> (|results| == |questions| + 1 && AllSucceeded(results))
      ensures d.source == (if |questions| == 0 then NoSource else FromUser(msg.user))
    {
      CompletesIff(results, |steps|);
      data
    }

    /** What the state of a dialog says about its series: the callback has been called
        once exactly when the dialog ended; it ended without error exactly when every
        question and the time stamp succeeded, which is also when `dateTime` is set; and
        an error is the one the last step that ran reported, after every earlier step
        succeeded and before the time stamp. */
    lemma RunSummary()
      requires Valid()
      ensures |notifications| == (if status.Ended? then 1 else 0)
      ensures status == Ended(None) <==> |results| == |questions| + 1 && AllSucceeded(results)
      ensures data.dateTime.Some? <==> |results| == |questions| + 1 && AllSucceeded(results)
      ensures status.Ended? && status.error.Some? ==>
        && 0 < |results| <= |questions|
        && results[|results| - 1] == Failed(status.error.value)
        && AllSucceeded(results[..|results| - 1])
    {
      CompletesIff(results, |steps|);
      if status.Ended? && status.error.Some? {
        EndsWithFirstError(results, |steps|, status.error.value);
        var k :| 0 <= k < |results| && results[k] == Failed(status.error.value) && AllSucceeded(results[..k]);
        assert results[..position] == results[..|results| - 1];
      }
    }

    /** `_go`: one step per question in array order, then the time stamp, run in series
        from the first. */
    method Go(now: Timestamp)
      requires steps == [] && position == 0 && results == [] && status == Running
      requires bindings == [] && notifications == [] && outbox == [] && data == InitialData
      modifies this
      ensures Valid()
      ensures Started(now)
    {
      var cbs: seq<Step> := [];
      for i := 0 to |questions|
        invariant |cbs| == i
        invariant forall k :: 0 <= k < i ==> cbs[k] == Ask(questions[k])
      {
        cbs := cbs + [Ask(questions[i])];
      }
      cbs := cbs + [StampTime];
      steps := cbs;
      assert DataInvariant();
      RunStep(now);
    }

    /** The series calling step `position`: ask its question, or stamp the time and
        end the series. */
    method RunStep(now: Timestamp)
      requires ReadyForStep()
      modifies this
      ensures Valid()
      ensures position == old(position)
      ensures old(position) < |questions| ==>
        && status == Running && results == old(results) && notifications == []
        && outbox == old(outbox) + [questions[position].prompt]
        && data == old(data).(source := FromUser(msg.user))
        && bindings == QuestionBindings(questions[position])
      ensures old(position) == |questions| ==>
        && status == Ended(None) && results == old(results) + [Succeeded]
        && outbox == old(outbox)
        && data == old(data).(dateTime := Some(now))
        && bindings == []
        && notifications == [Notification(callback, None, msg)]
    {
      assert results[..position] == results;
      match steps[position]
      case Ask(q) =>
        InvokeDialog(q);
        RunningIff(results, |steps|);
      case StampTime =>
        data := data.(dateTime := Some(now));
        OutcomeAfterStep(results, Succeeded, |steps|);
        results := results + [Succeeded];
        Complete(None);
    }

    /** `_invokeDialog`: send the question, record the user, register the bindings for
        the question's answer type. */
    method InvokeDialog(q: Question)
      modifies this`outbox, this`data, this`bindings
      ensures outbox == old(outbox) + [q.prompt]
      ensures data == old(data).(source := FromUser(msg.user))
      ensures bindings == old(bindings) + QuestionBindings(q)
    {
      outbox := outbox + [q.prompt];
      data := data.(source := FromUser(msg.user));
      if q.answer.Choice? {
        var options := q.answer.options;
        for j := 0 to |options|
          invariant outbox == old(outbox) + [q.prompt]
          invariant data == old(data).(source := FromUser(msg.user))
          invariant bindings == old(bindings) + ChoiceBindings(options[..j], q.error, q.required)
        {
          var option := options[j];
          assert options[..j + 1][..j] == options[..j];
          bindings := bindings + [OptionBinding(option)];
          bindings := bindings + [CatchAllBinding(q.error, q.required)];
        }
        assert options[..|options|] == options;
      }
      if q.answer.Text? {
        bindings := bindings + [Binding(NotBlank, OnText)];
      }
      if q.answer.Attachment? {
        bindings := bindings + [Binding(SkipWord, OnSkip)];
      }
    }

    /** A handler closure of `_invokeDialog` running on reply `text`. */
    method Fire(h: Handler, text: string) returns (r: Done<DialogError>)
      modifies this`outbox, this`data
      ensures var e := HandlerEffect(h, text, old(data));
        outbox == old(outbox) + e.replies && data == e.data && r == e.result
    {
      match h
      case OnOption(option) =>
        outbox := outbox + [option.response];
        data := data.(kind := option.pattern);
        if !option.valid {
          return Failed(InvalidResponse);
        }
        r := Succeeded;
      case OnUnmatched(error, required) =>
        outbox := outbox + [error];
        if required {
          return Failed(CannotContinue);
        }
        r := Succeeded;
      case OnText =>
        data := data.(description := text);
        r := Succeeded;
      case OnSkip =>
        outbox := outbox + [SkipReply];
        r := Succeeded;
    }

    /** The series' final callback: `self.callback(err, self.msg, self)`. */
    method Complete(err: Option<DialogError>)
      modifies this`status, this`notifications
      ensures status == Ended(err)
      ensures notifications == old(notifications) + [Notification(callback, err, msg)]
    {
      status := Ended(err);
      notifications := notifications + [Notification(callback, err, msg)];
    }

    /** The `done` callback async-series hands to the question at `position`: record
        what it passed, then end the series on an error or run the next step. */
    method StepDone(r: Done<DialogError>, now: Timestamp)
      requires StepsBuilt() && status == Running
      requires position < |questions| && |results| == position && AllSucceeded(results)
      requires bindings == [] && notifications == []
      requires DataInvariant()
      requires data.source == FromUser(msg.user) && data.dateTime == None
      modifies this
      ensures Valid()
      ensures r.Failed? ==>
        && results == old(results) + [r]
        && status == Ended(Some(r.error)) && position == old(position)
        && outbox == old(outbox) && data == old(data)
        && notifications == [Notification(callback, Some(r.error), msg)]
      ensures r.Succeeded? && old(position) + 1 < |questions| ==>
        && results == old(results) + [r]
        && status == Running && position == old(position) + 1
        && outbox == old(outbox) + [questions[position].prompt]
        && data == old(data)
        && bindings == QuestionBindings(questions[position])
      ensures r.Succeeded? && old(position) + 1 == |questions| ==>
        && results == old(results) + [r, Succeeded]
        && status == Ended(None) && position == |questions|
        && outbox == old(outbox)
        && data == old(data).(dateTime := Some(now))
        && notifications == [Notification(callback, None, msg)]
    {
      OutcomeAfterStep(results, r, |steps|);
      results := results + [r];
      if r.Failed? {
        Complete(Some(r.error));
        assert results[..position] == old(results);
        return;
      }
      position := position + 1;
      assert results[..position] == results;
      RunStep(now);
    }

    /** A reply from the user reaching the switchboard: the first matching binding is
        taken, the registered bindings are cleared and its handler fires. */
    method Receive(text: string, now: Timestamp)
      requires Valid()
      modifies this
      ensures Valid()
      ensures old(Pending(text)).None? ==>
        && outbox == old(outbox) && data == old(data) && bindings == old(bindings)
        && position == old(position) && status == old(status)
        && notifications == old(notifications) && results == old(results)
      ensures old(Pending(text)).Some? ==>
        var e := old(Pending(text)).value;
        && (e.result.Failed? ==>
              && results == old(results) + [e.result]
              && status == Ended(Some(e.result.error)) && position == old(position)
              && outbox == old(outbox) + e.replies
              && data == e.data
              && notifications == [Notification(callback, Some(e.result.error), msg)])
        && (e.result.Succeeded? && old(position) + 1 < |questions| ==>
              && results == old(results) + [e.result]
              && status == Running && position == old(position) + 1
              && outbox == old(outbox) + e.replies + [questions[position].prompt]
              && data == e.data
              && bindings == QuestionBindings(questions[position]))
        && (e.result.Succeeded? && old(position) + 1 == |questions| ==>
              && results == old(results) + [e.result, Succeeded]
              && status == Ended(None) && position == |questions|
              && outbox == old(outbox) + e.replies
              && data == e.data.(dateTime := Some(now))
              && notifications == [Notification(callback, None, msg)])
    {
      var m := FirstMatch(bindings, text, optionMatches);
      if m.None? {
        return;
      }
      ghost var q := questions[position];
      assert Pending(text) == Some(HandlerEffect(bindings[m.value].handler, text, data));
      AnswerChanges(q, text, optionMatches, data);
      var h := bindings[m.value].handler;
      bindings := [];
      var r := Fire(h, text);
      if data.kind != old(data.kind) {
        assert OffersFirst(q, data.kind);
      }
      assert results[..position] == results;
      StepDone(r, now);
    }
  }

  /** A one-question text dialog: a whitespace-only reply is ignored, the next reply is
      recorded and ends the dialog without error. */
  method ExampleTextDialog()
  {
    var colour := Question("Color?", Text, true, "?");
    var d := new Dialog(Message("u1", "start"), [colour], UserCallback(7), (_, _) => false, 0);
    assert d.outbox == ["Color?"];
    TextAnswer(colour, "   ", d.optionMatches, d.data);
    assert IsBlank("   ");
    d.Receive("   ", 1);
    assert d.status == Running && d.outbox == ["Color?"];
    TextAnswer(colour, "blue", d.optionMatches, d.data);
    assert !IsWhitespace("blue"[0]);
    d.Receive("blue", 2);
    assert d.status == Ended(None);
    assert d.data.description == "blue" && d.data.dateTime == Some(2);
    assert d.notifications == [Notification(UserCallback(7), None, Message("u1", "start"))];
  }

  /** A choice question whose second option matches the reply but not the first: the
      catch-all after the first option fires, sends the error text and, the question
      being required, ends the dialog with an error. */
  method ExampleSecondOptionUnreachable()
  {
    var yes := ChoiceOption("yes", "Great", true);
    var no := ChoiceOption("no", "Too bad", true);
    var ask := Question("Continue?", Choice([yes, no]), true, "Sorry?");
    var exact: OptionMatcher := (pattern, text) => pattern == text;
    var d := new Dialog(Message("u1", "start"), [ask], NoOp, exact, 0);
    ChoiceAnswer(ask, "no", exact, d.data);
    d.Receive("no", 1);
    assert d.outbox == ["Continue?", "Sorry?"];
    assert d.status == Ended(Some(CannotContinue)) && d.data.kind == "private";
  }
}
