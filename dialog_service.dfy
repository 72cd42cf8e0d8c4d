/** The configuration resolution of the dialog service
    (src/app/shared/services/dialog.service.ts): what `showAlert` hands to the
    bottom sheet and which callback it runs afterwards, and what
    `showNotification` hands to the snack bar and which handlers it wires. The
    Material calls themselves are not modelled; each operation returns the
    arguments it would pass to them. */
module DialogService {
  import opened Wrappers

  /** A function supplied by the caller (an alert callback, a dismiss handler or
      an action handler), identified by an opaque id. */
  datatype Callback = Callback(id: nat)

  /** The exceptions the JavaScript code can throw here. */
  datatype JsError = TypeError

  // ---------------------------------------------------------------------------
  // showAlert
  // ---------------------------------------------------------------------------

  /** The alert configuration: every field may be left out. `alertType` is the
      property `type`. */
  datatype DialogAlertConfig = DialogAlertConfig(
    message: Option<string>,
    messages: Option<seq<string>>,
    title: Option<string>,
    alertType: Option<string>,
    callback: Option<Callback>)

  /** The argument of `showAlert`: a plain message or a configuration. */
  datatype AlertArgument = AlertMessage(text: string) | AlertConfig(config: DialogAlertConfig)

  /** The data the bottom sheet receives: every default field is present, and
      the callback travels along when the configuration has one. */
  datatype AlertData = AlertData(
    message: string,
    messages: seq<string>,
    title: string,
    alertType: string,
    callback: Option<Callback>)

  /** What `showAlert` passes to `bottomSheet.open`. */
  datatype BottomSheetOpen = BottomSheetOpen(ariaLabel: string, data: AlertData)

  /** A callback run with its argument. */
  datatype Invocation = Invocation(callback: Callback, argument: bool)

  const DefaultMessage: string := ""
  const DefaultTitle: string := "Warning!"
  const DefaultType: string := "warn"
  const AlertAriaLabel: string := "Dialog with a message"

  /** A configuration with only a message. */
  function MessageOnly(text: string): DialogAlertConfig {
    DialogAlertConfig(Some(text), None, None, None, None)
  }

  /** A string is read as the configuration `{message: s}`; a configuration is
      used as it is. */
  function AlertConfigOf(arg: AlertArgument): (c: DialogAlertConfig)
    ensures arg.AlertMessage? ==> c.message == Some(arg.text)
    ensures arg.AlertMessage? ==> c.messages.None? && c.title.None? && c.alertType.None? && c.callback.None?
    ensures arg.AlertConfig? ==> c == arg.config
  {
    match arg
    case AlertMessage(text) => MessageOnly(text)
    case AlertConfig(config) => config
  }

  /** The defaults overlaid by the configuration: a field the configuration
      gives wins, a field it leaves out takes its default. */
  function ResolveAlert(c: DialogAlertConfig): (d: AlertData)
    ensures c.message.Some? ==> d.message == c.message.value
    ensures c.message.None? ==> d.message == DefaultMessage
    ensures c.messages.Some? ==> d.messages == c.messages.value
    ensures c.messages.None? ==> d.messages == []
    ensures c.title.Some? ==> d.title == c.title.value
    ensures c.title.None? ==> d.title == DefaultTitle
    ensures c.alertType.Some? ==> d.alertType == c.alertType.value
    ensures c.alertType.None? ==> d.alertType == DefaultType
    ensures d.callback == c.callback
  {
    AlertData(
      c.message.GetOr(DefaultMessage),
      c.messages.GetOr([]),
      c.title.GetOr(DefaultTitle),
      c.alertType.GetOr(DefaultType),
      c.callback)
  }

  /** The bottom sheet `showAlert` opens. A plain message is shown with the
      default title and type, no detail lines and no callback. */
  function ShowAlert(arg: AlertArgument): (o: BottomSheetOpen)
    ensures o.ariaLabel == AlertAriaLabel
    ensures arg.AlertMessage? ==> o.data == AlertData(arg.text, [], DefaultTitle, DefaultType, None)
    ensures arg.AlertConfig? ==> o.data == ResolveAlert(arg.config)
  {
    BottomSheetOpen(AlertAriaLabel, ResolveAlert(AlertConfigOf(arg)))
  }

  /** The argument the callback receives: `result || false`, for the optional
      boolean the sheet was dismissed with. */
  function CallbackArgument(result: Option<bool>): (b: bool)
    ensures b <==> result == Some(true)
  {
    match result
    case Some(v) => v
    case None => false
  }

  /** What happens once the sheet is dismissed with `result`: the callback runs
      only when the configuration supplied one, and then with `result || false`. */
  function AfterDismissed(arg: AlertArgument, result: Option<bool>): (inv: Option<Invocation>)
    ensures inv.Some? <==> AlertConfigOf(arg).callback.Some?
    ensures inv.Some? ==> inv.value.callback == AlertConfigOf(arg).callback.value
    ensures inv.Some? ==> (inv.value.argument <==> result == Some(true))
    ensures arg.AlertMessage? ==> inv.None?
  {
    var config := AlertConfigOf(arg);
    if config.callback.Some? then Some(Invocation(config.callback.value, CallbackArgument(result)))
    else None
  }

  // The object spread `{ ...configDefault, ...config }`, as JavaScript objects.

  /** A property value of the objects involved. */
  datatype JsValue = JsString(s: string) | JsArray(items: seq<string>) | JsFunction(f: Callback)

  /** The property names that occur in these objects: `message`, `messages`,
      `title`, `type` and `callback`. */
  datatype Key = MessageKey | MessagesKey | TitleKey | TypeKey | CallbackKey

  /** A plain JavaScript object: its own properties and their values. */
  type JsObject = map<Key, JsValue>

  /** `{ ...a, ...b }`: every own property of `a`, then every own property of
      `b`, which overwrites one of `a` with the same key. */
  function Spread(a: JsObject, b: JsObject): JsObject {
    a + b
  }

  /** The object literal `configDefault`. */
  const ConfigDefault: JsObject := map[
    MessageKey := JsString(DefaultMessage),
    MessagesKey := JsArray([]),
    TitleKey := JsString(DefaultTitle),
    TypeKey := JsString(DefaultType)]

  /** The value of property `k` in the configuration object, if it has one. */
  function ConfigProperty(c: DialogAlertConfig, k: Key): Option<JsValue> {
    match k
    case MessageKey => if c.message.Some? then Some(JsString(c.message.value)) else None
    case MessagesKey => if c.messages.Some? then Some(JsArray(c.messages.value)) else None
    case TitleKey => if c.title.Some? then Some(JsString(c.title.value)) else None
    case TypeKey => if c.alertType.Some? then Some(JsString(c.alertType.value)) else None
    case CallbackKey => if c.callback.Some? then Some(JsFunction(c.callback.value)) else None
  }

  /** The configuration as a JavaScript object: a property exactly for each
      field it gives. */
  function AlertConfigObject(c: DialogAlertConfig): JsObject {
    map k: Key | ConfigProperty(c, k).Some? :: ConfigProperty(c, k).value
  }

  /** The value of property `k` in the resolved data, if it has one. */
  function DataProperty(d: AlertData, k: Key): Option<JsValue> {
    match k
    case MessageKey => Some(JsString(d.message))
    case MessagesKey => Some(JsArray(d.messages))
    case TitleKey => Some(JsString(d.title))
    case TypeKey => Some(JsString(d.alertType))
    case CallbackKey => if d.callback.Some? then Some(JsFunction(d.callback.value)) else None
  }

  /** The resolved data as a JavaScript object. */
  function AlertDataObject(d: AlertData): JsObject {
    map k: Key | DataProperty(d, k).Some? :: DataProperty(d, k).value
  }

  /** The typed resolution is the object spread: the data handed to the sheet
      is exactly `{ ...configDefault, ...config }`. */
  lemma ResolveAlertIsSpread(c: DialogAlertConfig)
    ensures AlertDataObject(ResolveAlert(c)) == Spread(ConfigDefault, AlertConfigObject(c))
  {
  }

  // ---------------------------------------------------------------------------
  // showNotification
  // ---------------------------------------------------------------------------

  /** The notification configuration: a message, and optionally a map from
      action labels to handlers (in `Object.keys` order), a dismiss handler and
      the number of seconds the snack bar stays open. The labels of the action
      map are taken to be distinct, as the keys of a JavaScript object are. */
  datatype DialogNotificationConfig = DialogNotificationConfig(
    message: string,
    action: Option<seq<(string, Callback)>>,
    dismiss: Option<Callback>,
    secondsToClose: Option<int>)

  /** The argument of `showNotification`: a plain message or a configuration. */
  datatype NotificationArgument = NotificationMessage(text: string) | NotificationConfig(config: DialogNotificationConfig)

  /** What `showNotification` passes to `snackBar.open`, and the handlers it
      subscribes to `afterDismissed` and `onAction`. */
  datatype SnackBarOpen = SnackBarOpen(
    message: string,
    action: string,
    duration: int,
    horizontalPosition: string,
    verticalPosition: string,
    onDismiss: Option<Callback>,
    onAction: Option<Callback>)

  const DefaultSecondsToClose: int := 5

  /** A string is read as the configuration `{message: s}`; a configuration is
      used as it is. */
  function NotificationConfigOf(arg: NotificationArgument): (c: DialogNotificationConfig)
    ensures arg.NotificationMessage? ==> c == DialogNotificationConfig(arg.text, None, None, None)
    ensures arg.NotificationConfig? ==> c == arg.config
  {
    match arg
    case NotificationMessage(text) => DialogNotificationConfig(text, None, None, None)
    case NotificationConfig(config) => config
  }

  /** `config.secondsToClose || 5`: a missing or zero value (both falsy) gives
      5; any other value is kept. The result is never zero. */
  function SecondsToClose(c: DialogNotificationConfig): (s: int)
    ensures s != 0
    ensures c.secondsToClose.None? || c.secondsToClose == Some(0) ==> s == DefaultSecondsToClose
    ensures c.secondsToClose.Some? && c.secondsToClose.value != 0 ==> s == c.secondsToClose.value
  {
    if c.secondsToClose.Some? && c.secondsToClose.value != 0 then c.secondsToClose.value
    else DefaultSecondsToClose
  }

  /** The snack bar duration in milliseconds: whole seconds, never zero, and
      5000 when the configuration sets no time. */
  function Duration(c: DialogNotificationConfig): (ms: int)
    ensures ms % 1000 == 0 && ms / 1000 == SecondsToClose(c)
    ensures ms != 0
    ensures c.secondsToClose.None? ==> ms == 5000
  {
    SecondsToClose(c) * 1000
  }

  /** `toUpperCase` on one character, for the ASCII letters. */
  function UpperChar(ch: char): (u: char)
    ensures 'a' <= ch <= 'z' ==> 'A' <= u <= 'Z' && u as int - ch as int == 'A' as int - 'a' as int
    ensures !('a' <= ch <= 'z') ==> u == ch
  {
    if 'a' <= ch <= 'z' then (ch as int - 'a' as int + 'A' as int) as char else ch
  }

  /** `toUpperCase` on a string: the same length, each character upper-cased. */
  function UpperCase(s: string): (r: string)
    ensures |r| == |s|
    ensures forall i :: 0 <= i < |s| ==> r[i] == UpperChar(s[i])
    ensures forall i :: 0 <= i < |r| ==> !('a' <= r[i] <= 'z')
  {
    if |s| == 0 then [] else [UpperChar(s[0])] + UpperCase(s[1..])
  }

  /** The action label as written: `config.action ? Object.keys(config.action)[0].toUpperCase() : ''`.
      An action map without entries is truthy, its first key is `undefined`,
      and calling `toUpperCase` on it throws. */
  function ActionLabelAsWritten(action: Option<seq<(string, Callback)>>): (r: Result<string, JsError>)
    ensures action.None? ==> r == Success("")
    ensures action.Some? && |action.value| == 0 ==> r == Failure(TypeError)
    ensures action.Some? && |action.value| > 0 ==> r == Success(UpperCase(action.value[0].0))
  {
    match action
    case None => Success("")
    case Some(entries) => if |entries| == 0 then Failure(TypeError) else Success(UpperCase(entries[0].0))
  }

  /** The action label as evidently intended: the first key upper-cased, and ''
      when there is no action or the action map has no entries. */
  function ActionLabel(action: Option<seq<(string, Callback)>>): (name: string)
    ensures action.None? || |action.value| == 0 ==> name == ""
    ensures action.Some? && |action.value| > 0 ==> name == UpperCase(action.value[0].0)
  {
    if action.Some? && |action.value| > 0 then UpperCase(action.value[0].0) else ""
  }

  /** The handler subscribed to `onAction`: the first value of the action map,
      wired only when the map is present and has at least one entry. */
  function ActionHandler(action: Option<seq<(string, Callback)>>): (h: Option<Callback>)
    ensures h.Some? <==> action.Some? && |action.value| > 0
    ensures h.Some? ==> h.value == action.value[0].1
  {
    if action.Some? && |action.value| > 0 then Some(action.value[0].1) else None
  }

  /** The snack bar `showNotification` opens, with the action label evidently
      intended. The label and the action handler come from the same (first)
      entry of the action map; the dismiss handler is wired only when given. */
  function ShowNotification(arg: NotificationArgument): (o: SnackBarOpen)
    ensures o.message == NotificationConfigOf(arg).message
    ensures o.duration == SecondsToClose(NotificationConfigOf(arg)) * 1000
    ensures o.horizontalPosition == "right" && o.verticalPosition == "top"
    ensures o.onDismiss == NotificationConfigOf(arg).dismiss
    ensures o.onAction.Some? <==> NotificationConfigOf(arg).action.Some? && |NotificationConfigOf(arg).action.value| > 0
    ensures o.onAction.Some? ==> o.action == UpperCase(NotificationConfigOf(arg).action.value[0].0)
                                 && o.onAction.value == NotificationConfigOf(arg).action.value[0].1
    ensures o.onAction.None? ==> o.action == ""
    ensures arg.NotificationMessage? ==> o == SnackBarOpen(arg.text, "", 5000, "right", "top", None, None)
  {
    var c := NotificationConfigOf(arg);
    SnackBarOpen(c.message, ActionLabel(c.action), Duration(c), "right", "top", c.dismiss, ActionHandler(c.action))
  }

  /** `showNotification` as written: it throws before opening anything when the
      action map has no entries. */
  function ShowNotificationAsWritten(arg: NotificationArgument): (r: Result<SnackBarOpen, JsError>)
    ensures r.Failure? <==> NotificationConfigOf(arg).action == Some([])
  {
    var c := NotificationConfigOf(arg);
    match ActionLabelAsWritten(c.action)
    case Failure(e) => Failure(e)
    case Success(name) => Success(SnackBarOpen(c.message, name, Duration(c), "right", "top", c.dismiss, ActionHandler(c.action)))
  }

  /** Where the code as written does not throw, it opens the same snack bar as
      the corrected one; it throws exactly on an empty action map. */
  lemma AsWrittenAgreesWhereItSucceeds(arg: NotificationArgument)
    ensures ShowNotificationAsWritten(arg).Success? ==> ShowNotificationAsWritten(arg).value == ShowNotification(arg)
    ensures ShowNotificationAsWritten(arg).Failure? <==> NotificationConfigOf(arg).action == Some([])
  {
  }

  /** The counterexample: `{message: 'Saved', action: {}}` throws as written,
      while the corrected operation opens a snack bar with no action. */
  lemma EmptyActionMapThrows()
    ensures ShowNotificationAsWritten(NotificationConfig(DialogNotificationConfig("Saved", Some([]), None, None))).Failure?
    ensures ShowNotification(NotificationConfig(DialogNotificationConfig("Saved", Some([]), None, None)))
            == SnackBarOpen("Saved", "", 5000, "right", "top", None, None)
  {
  }
}
