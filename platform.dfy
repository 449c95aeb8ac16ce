/**
 * The parts of the Android platform that the receiver and the sound service
 * talk to, reduced to values: intents and their typed extras, notifications,
 * notification channels, the shared-preferences store and Kotlin's
 * `isNullOrBlank`.
 */
module Platform {
  import opened Wrappers

  /** A push payload or any other flat string-to-string map. */
  type StringMap = map<string, string>

  /** `d[key]` on a Kotlin map: null when the key is absent. */
  function Lookup(d: StringMap, key: string): (r: Option<string>)
    ensures r.Some? <==> key in d
    ensures r.Some? ==> r.value == d[key]
  {
    if key in d then Some(d[key]) else None
  }

  // ---------------------------------------------------------------------
  // Intents
  // ---------------------------------------------------------------------

  /** A typed intent extra, as `putExtra` stores it. */
  datatype Extra =
    | StringExtra(s: string)
    | BoolExtra(b: bool)
    | IntExtra(i: int)
    | LongExtra(l: int)
    | FloatExtra(f: real)

  /** The component an explicit intent is addressed to. */
  datatype Component = SoundServiceComponent | DetailActivityComponent

  datatype Intent = Intent(target: Component, action: Option<string>, extras: map<string, Extra>)

  /**
   * `intent?.getStringExtra(key)`: null when there is no intent, no such
   * extra, or an extra of another type.
   */
  function GetStringExtra(intent: Option<Intent>, key: string): (r: Option<string>)
    ensures r.Some? <==> intent.Some? && key in intent.value.extras && intent.value.extras[key].StringExtra?
    ensures r.Some? ==> intent.value.extras[key] == StringExtra(r.value)
  {
    if intent.Some? && key in intent.value.extras && intent.value.extras[key].StringExtra?
    then Some(intent.value.extras[key].s) else None
  }

  /** `intent?.getBooleanExtra(key, default) ?: default`. */
  function GetBooleanExtra(intent: Option<Intent>, key: string, default: bool): (r: bool)
    ensures intent.Some? && key in intent.value.extras && intent.value.extras[key].BoolExtra? ==> intent.value.extras[key] == BoolExtra(r)
    ensures !(intent.Some? && key in intent.value.extras && intent.value.extras[key].BoolExtra?) ==> r == default
  {
    if intent.Some? && key in intent.value.extras && intent.value.extras[key].BoolExtra?
    then intent.value.extras[key].b else default
  }

  /** `intent?.getIntExtra(key, default) ?: default`. */
  function GetIntExtra(intent: Option<Intent>, key: string, default: int): (r: int)
    ensures intent.Some? && key in intent.value.extras && intent.value.extras[key].IntExtra? ==> intent.value.extras[key] == IntExtra(r)
    ensures !(intent.Some? && key in intent.value.extras && intent.value.extras[key].IntExtra?) ==> r == default
  {
    if intent.Some? && key in intent.value.extras && intent.value.extras[key].IntExtra?
    then intent.value.extras[key].i else default
  }

  /** `intent?.getLongExtra(key, default) ?: default`. */
  function GetLongExtra(intent: Option<Intent>, key: string, default: int): (r: int)
    ensures intent.Some? && key in intent.value.extras && intent.value.extras[key].LongExtra? ==> intent.value.extras[key] == LongExtra(r)
    ensures !(intent.Some? && key in intent.value.extras && intent.value.extras[key].LongExtra?) ==> r == default
  {
    if intent.Some? && key in intent.value.extras && intent.value.extras[key].LongExtra?
    then intent.value.extras[key].l else default
  }

  /** `intent?.getFloatExtra(key, default) ?: default`. */
  function GetFloatExtra(intent: Option<Intent>, key: string, default: real): (r: real)
    ensures intent.Some? && key in intent.value.extras && intent.value.extras[key].FloatExtra? ==> intent.value.extras[key] == FloatExtra(r)
    ensures !(intent.Some? && key in intent.value.extras && intent.value.extras[key].FloatExtra?) ==> r == default
  {
    if intent.Some? && key in intent.value.extras && intent.value.extras[key].FloatExtra?
    then intent.value.extras[key].f else default
  }

  /**
   * `putExtra(key, v)` followed by the matching typed read gives `v` back,
   * whatever the intent held before and whatever default is passed; a
   * reader of another type than the one put sees its default (null for
   * strings).
   */
  lemma PutThenGetExtra(i: Intent, key: string, x: Extra, s: string, b: bool, n: int, l: int, f: real, dflt: bool)
    ensures GetStringExtra(Some(i.(extras := i.extras[key := StringExtra(s)])), key) == Some(s)
    ensures GetBooleanExtra(Some(i.(extras := i.extras[key := BoolExtra(b)])), key, dflt) == b
    ensures GetIntExtra(Some(i.(extras := i.extras[key := IntExtra(n)])), key, 0) == n
    ensures GetLongExtra(Some(i.(extras := i.extras[key := LongExtra(l)])), key, 0) == l
    ensures GetFloatExtra(Some(i.(extras := i.extras[key := FloatExtra(f)])), key, 0.0) == f
    ensures !x.StringExtra? ==> GetStringExtra(Some(i.(extras := i.extras[key := x])), key) == None
    ensures !x.BoolExtra? ==> GetBooleanExtra(Some(i.(extras := i.extras[key := x])), key, dflt) == dflt
    ensures !x.IntExtra? ==> GetIntExtra(Some(i.(extras := i.extras[key := x])), key, n) == n
    ensures !x.LongExtra? ==> GetLongExtra(Some(i.(extras := i.extras[key := x])), key, l) == l
    ensures !x.FloatExtra? ==> GetFloatExtra(Some(i.(extras := i.extras[key := x])), key, f) == f
  {
  }

  // ---------------------------------------------------------------------
  // Notifications and channels
  // ---------------------------------------------------------------------

  /** NotificationCompat.PRIORITY_LOW, PRIORITY_DEFAULT and PRIORITY_MAX. */
  datatype Priority = PriorityLow | PriorityDefault | PriorityMax

  /** NotificationCompat.CATEGORY_ALARM, CATEGORY_MESSAGE and CATEGORY_SERVICE. */
  datatype Category = CategoryAlarm | CategoryMessage | CategoryService

  /**
   * What a built notification carries. `stopAction` is the intent behind its
   * "중지" (stop) action button, `contentIntent` the intent behind a tap.
   */
  datatype Notification = Notification(
    channelId: string,
    title: string,
    body: string,
    priority: Priority,
    category: Category,
    publicVisibility: bool,
    autoCancel: bool,
    ongoing: bool,
    silent: bool,
    stopAction: Option<Intent>,
    contentIntent: Option<Intent>,
    ticker: Option<string>)

  /** NotificationManager.IMPORTANCE_DEFAULT and IMPORTANCE_HIGH. */
  datatype Importance = ImportanceDefault | ImportanceHigh

  datatype Channel = Channel(
    name: string,
    importance: Importance,
    description: string,
    bypassDnd: bool,
    lockscreenPublic: bool)

  /** Build.VERSION_CODES.O: notification channels exist from this API level on. */
  const SDK_O: int := 26

  // ---------------------------------------------------------------------
  // Shared preferences
  // ---------------------------------------------------------------------

  /** The boolean entries of the shared-preferences file. */
  type Prefs = map<string, bool>

  /** `prefs.getBoolean(key, default)`. */
  function GetBoolean(prefs: Prefs, key: string, default: bool): (r: bool)
    ensures key in prefs ==> r == prefs[key]
    ensures key !in prefs ==> r == default
  {
    if key in prefs then prefs[key] else default
  }

  // ---------------------------------------------------------------------
  // Kotlin strings
  // ---------------------------------------------------------------------

  /**
   * Kotlin's `Char.isWhitespace`: Java's `Character.isWhitespace` or
   * `Character.isSpaceChar`, that is the ASCII controls TAB, LF, VT, FF, CR,
   * FS, GS, RS, US, and the Unicode space, line and paragraph separators.
   */
  predicate IsWhitespace(c: char) {
    c == '\t' || c == '\n' || c == '\U{000B}' || c == '\U{000C}' || c == '\r'
    || ('\U{001C}' <= c <= '\U{001F}')
    || c == ' ' || c == '\U{00A0}' || c == '\U{1680}'
    || ('\U{2000}' <= c <= '\U{200A}')
    || c == '\U{2028}' || c == '\U{2029}' || c == '\U{202F}' || c == '\U{205F}' || c == '\U{3000}'
  }

  /**
   * Kotlin's `String?.isNullOrBlank()`: null, empty, or whitespace only; a
   * single non-whitespace character anywhere makes a string non-blank.
   */
  predicate IsNullOrBlank(s: Option<string>)
    ensures s.None? || s == Some("") ==> IsNullOrBlank(s)
    ensures !IsNullOrBlank(s) <==> s.Some? && exists i :: 0 <= i < |s.value| && !IsWhitespace(s.value[i])
  {
    s.None? || forall i :: 0 <= i < |s.value| ==> IsWhitespace(s.value[i])
  }
}
