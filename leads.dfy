/**
 * The expression-level logic of `LeadTracker` in dashboard-script.js: turning CRM contacts
 * into leads, the error chosen for a failed load, the per-status counts, the status filter,
 * the status emoji and the relative-age label of a card.
 */
module Leads {
  import opened Wrappers
  import opened JsText

  /** A contact's `properties`: a present key is a property whose `value` is that string. */
  type Properties = map<string, string>

  /** A contact of the response's `results`; its `properties` object may be missing. */
  datatype Contact = Contact(id: string, properties: Option<Properties>, createdAt: int)

  /** The normalised record the dashboard keeps; `createdAt` is in epoch milliseconds. */
  datatype Lead = Lead(
    id: string, name: string, email: string, phone: string, status: string,
    budget: string, timeline: string, needs: string, createdAt: int)

  const NotAvailable := "N/A"
  const UnknownStatus := "unknown"
  const Hot := "hot"
  const Warm := "warm"
  const Cold := "cold"
  const ClassifiedStatuses: set<string> := {Hot, Warm, Cold}
  const AllFilter := "all"

  /**
   * `properties.key?.value || default`: the property's value unless it is missing or empty,
   * and then the default.
   */
  function PropertyOr(props: Properties, key: string, default: string): (v: string)
    ensures v == default || (key in props && v == props[key] && v != "")
    ensures v == default <==> (key !in props || props[key] == "" || props[key] == default)
  {
    if key in props && props[key] != "" then props[key] else default
  }

  /** The object literal built for one contact inside `loadLeads`' `.map`. */
  function ToLead(id: string, props: Properties, createdAt: int): (lead: Lead)
    ensures lead.id == id && lead.createdAt == createdAt
    ensures lead.name == PropertyOr(props, "firstname", "") + " " + PropertyOr(props, "lastname", "")
    ensures lead.status == PropertyOr(props, "hs_lead_status", UnknownStatus)
    ensures lead.email == PropertyOr(props, "email", NotAvailable)
    ensures lead.phone == PropertyOr(props, "phone", NotAvailable)
    ensures lead.budget == PropertyOr(props, "leadbudget", NotAvailable)
    ensures lead.timeline == PropertyOr(props, "leadtimeline", NotAvailable)
    ensures lead.needs == PropertyOr(props, "leadneeds", NotAvailable)
  {
    Lead(id,
         PropertyOr(props, "firstname", "") + " " + PropertyOr(props, "lastname", ""),
         PropertyOr(props, "email", NotAvailable),
         PropertyOr(props, "phone", NotAvailable),
         PropertyOr(props, "hs_lead_status", UnknownStatus),
         PropertyOr(props, "leadbudget", NotAvailable),
         PropertyOr(props, "leadtimeline", NotAvailable),
         PropertyOr(props, "leadneeds", NotAvailable),
         createdAt)
  }

  /** No normalised field is ever empty except the name's halves; a lead always has a status. */
  lemma ToLeadNeverEmpty(id: string, props: Properties, createdAt: int)
    ensures var lead := ToLead(id, props, createdAt);
      && lead.status != "" && lead.email != "" && lead.phone != ""
      && lead.budget != "" && lead.timeline != "" && lead.needs != ""
      && |lead.name| >= 1
      && (lead.status == UnknownStatus <==>
            ("hs_lead_status" !in props || props["hs_lead_status"] in {"", UnknownStatus}))
  {
  }

  /**
   * `contacts.map(...)`: one lead per contact, in the same order, unless some contact has no
   * `properties` object, in which case reading `properties.firstname` throws.
   */
  function ToLeads(contacts: seq<Contact>): (r: Option<seq<Lead>>)
    ensures r.Some? <==> forall i :: 0 <= i < |contacts| ==> contacts[i].properties.Some?
    ensures r.Some? ==> |r.value| == |contacts|
    ensures r.Some? ==> forall i :: 0 <= i < |contacts| ==>
      r.value[i] == ToLead(contacts[i].id, contacts[i].properties.value, contacts[i].createdAt)
    decreases |contacts|
  {
    if contacts == [] then Some([])
    else if contacts[0].properties.None? then None
    else
      var rest := ToLeads(contacts[1..]);
      if rest.None? then None
      else
        var c := contacts[0];
        Some([ToLead(c.id, c.properties.value, c.createdAt)] + rest.value)
  }

  // ---------------------------------------------------------------------------------------
  // Loading

  /** The decoded body of a response: `data.results` (possibly missing), or a JSON failure. */
  datatype Body = Json(results: Option<seq<Contact>>) | Unparsable(error: string)

  /** How a `fetch` ends: rejected (its error already converted by `String(err)`), or a response. */
  datatype FetchOutcome = Rejected(error: string) | Response(status: int, body: Body)

  const InvalidKeyMessage := "Invalid API key. Please check and try again."
  const ApiErrorPrefix := "API error: "

  /** V8's text for reading `firstname` of a missing `properties` object. */
  const MissingPropertiesError := "TypeError: Cannot read properties of undefined (reading 'firstname')"

  /** `response.ok`. */
  predicate IsOk(status: int)
  {
    200 <= status <= 299
  }

  /** The message of the error thrown for a response that is not ok. */
  function LoadErrorMessage(status: int): (message: string)
    ensures message == InvalidKeyMessage <==> status == 401
    ensures status != 401 ==> message == ApiErrorPrefix + IntToString(status)
  {
    if status == 401 then InvalidKeyMessage
    else
      var message := ApiErrorPrefix + IntToString(status);
      assert message[0] != InvalidKeyMessage[0];
      message
  }

  /** Distinct non-401 statuses give distinct messages. */
  lemma LoadErrorMessageInjective(a: int, b: int)
    requires LoadErrorMessage(a) == LoadErrorMessage(b)
    ensures a == b
  {
    if a != 401 && b != 401 {
      var pa := ApiErrorPrefix + IntToString(a);
      var pb := ApiErrorPrefix + IntToString(b);
      assert IntToString(a) == pa[|ApiErrorPrefix|..];
      assert IntToString(b) == pb[|ApiErrorPrefix|..];
      IntToStringInjective(a, b);
    }
  }

  /** `String(new Error(message))`. */
  function ErrorString(message: string): string
  {
    "Error: " + message
  }

  /**
   * What one run of `loadLeads` after its request ends with: the new leads, or the text
   * `showError` is given.  A missing `results` means no leads.
   */
  function LoadResult(outcome: FetchOutcome): (r: Result<seq<Lead>, string>)
    ensures outcome.Rejected? ==> r == Err(outcome.error)
    ensures outcome.Response? && !IsOk(outcome.status) ==>
      r == Err(ErrorString(LoadErrorMessage(outcome.status)))
    ensures outcome.Response? && outcome.status == 401 ==>
      r == Err(ErrorString(InvalidKeyMessage))
    ensures r.Ok? ==> outcome.Response? && IsOk(outcome.status) && outcome.body.Json?
    ensures outcome.Response? && IsOk(outcome.status) && outcome.body == Json(None) ==> r == Ok([])
    ensures outcome.Response? && IsOk(outcome.status) && outcome.body.Json?
            && outcome.body.results.Some? ==>
      (r.Ok? <==> ToLeads(outcome.body.results.value).Some?)
    ensures outcome.Response? && IsOk(outcome.status) && outcome.body.Unparsable? ==>
      r == Err(outcome.body.error)
    ensures outcome.Response? && IsOk(outcome.status) && outcome.body.Json? ==>
      var contacts := if outcome.body.results.Some? then outcome.body.results.value else [];
      r == (if ToLeads(contacts).Some? then Ok(ToLeads(contacts).value) else Err(MissingPropertiesError))
  {
    match outcome
    case Rejected(error) => Err(error)
    case Response(status, body) =>
      if !IsOk(status) then Err(ErrorString(LoadErrorMessage(status)))
      else
        match body
        case Unparsable(error) => Err(error)
        case Json(results) =>
          var contacts := if results.Some? then results.value else [];
          match ToLeads(contacts)
          case None => Err(MissingPropertiesError)
          case Some(leads) => Ok(leads)
  }

  // ---------------------------------------------------------------------------------------
  // Counting and filtering

  /** `leads.filter((l) => l.status === status)`. */
  function WithStatus(leads: seq<Lead>, status: string): (r: seq<Lead>)
    ensures |r| <= |leads|
    ensures forall i :: 0 <= i < |r| ==> r[i].status == status && r[i] in leads
    ensures forall i :: 0 <= i < |leads| && leads[i].status == status ==> leads[i] in r
    decreases |leads|
  {
    if leads == [] then []
    else if leads[0].status == status then [leads[0]] + WithStatus(leads[1..], status)
    else WithStatus(leads[1..], status)
  }

  /** Filtering distributes over concatenation, so it keeps the leads' original order. */
  lemma {:induction false} WithStatusConcat(a: seq<Lead>, b: seq<Lead>, status: string)
    ensures WithStatus(a + b, status) == WithStatus(a, status) + WithStatus(b, status)
    decreases |a|
  {
    if a != [] {
      assert (a + b)[1..] == a[1..] + b;
      WithStatusConcat(a[1..], b, status);
    } else {
      assert a + b == b;
    }
  }

  /** The leads counted in none of the three status boxes. */
  function Unclassified(leads: seq<Lead>): (r: seq<Lead>)
    ensures |r| <= |leads|
    ensures forall i :: 0 <= i < |r| ==> r[i].status !in ClassifiedStatuses && r[i] in leads
    ensures forall i :: 0 <= i < |leads| && leads[i].status !in ClassifiedStatuses ==> leads[i] in r
    decreases |leads|
  {
    if leads == [] then []
    else if leads[0].status !in ClassifiedStatuses then [leads[0]] + Unclassified(leads[1..])
    else Unclassified(leads[1..])
  }

  datatype Stats = Stats(total: nat, hot: nat, warm: nat, cold: nat)

  /** The four numbers `updateStats` writes. */
  function StatsOf(leads: seq<Lead>): (st: Stats)
    ensures st.total == |leads|
    ensures st.hot == |WithStatus(leads, Hot)| && st.warm == |WithStatus(leads, Warm)|
    ensures st.cold == |WithStatus(leads, Cold)|
  {
    Stats(|leads|, |WithStatus(leads, Hot)|, |WithStatus(leads, Warm)|, |WithStatus(leads, Cold)|)
  }

  /**
   * Every lead is counted in at most one box: the total is the three counts plus the leads
   * with any other status ("unknown" included), so the three never exceed the total.
   */
  lemma {:induction false} StatsPartition(leads: seq<Lead>)
    ensures var st := StatsOf(leads);
      && st.total == st.hot + st.warm + st.cold + |Unclassified(leads)|
      && st.hot + st.warm + st.cold <= st.total
    decreases |leads|
  {
    if leads != [] {
      StatsPartition(leads[1..]);
    }
  }

  /** The leads `renderLeads` shows for the current filter. */
  function Visible(leads: seq<Lead>, filter: string): (r: seq<Lead>)
    ensures filter == AllFilter ==> r == leads
    ensures filter != AllFilter ==> r == WithStatus(leads, filter)
    ensures forall l :: l in r <==> l in leads && (filter == AllFilter || l.status == filter)
  {
    if filter == AllFilter then leads else WithStatus(leads, filter)
  }

  // ---------------------------------------------------------------------------------------
  // Cards

  const HotEmoji := "\U{1F534}"
  const WarmEmoji := "\U{1F7E1}"
  const ColdEmoji := "\U{1F535}"
  const DefaultEmoji := "\U{26AA}"

  /** The status symbol of a card: one per classified status, the white circle for every other. */
  function StatusEmoji(status: string): (e: string)
    ensures status == Hot ==> e == HotEmoji
    ensures status == Warm ==> e == WarmEmoji
    ensures status == Cold ==> e == ColdEmoji
    ensures e == DefaultEmoji <==> status !in ClassifiedStatuses
  {
    if status == Hot then HotEmoji
    else if status == Warm then WarmEmoji
    else if status == Cold then ColdEmoji
    else DefaultEmoji
  }

  /** The properties every plain object inherits from `Object.prototype`. */
  const ObjectPrototypeMembers: set<string> := {
    "constructor", "hasOwnProperty", "isPrototypeOf", "propertyIsEnumerable",
    "toLocaleString", "toString", "valueOf", "__proto__",
    "__defineGetter__", "__defineSetter__", "__lookupGetter__", "__lookupSetter__"}

  /** What `{hot, warm, cold}[status] || default` evaluates to: a symbol, or an inherited member. */
  datatype EmojiValue = Symbol(text: string) | PrototypeMember(name: string)

  /**
   * The emoji lookup as written: indexing an object literal also finds the members it inherits,
   * which are truthy, so `||` does not fall back to the default for them.
   */
  function StatusEmojiAsWritten(status: string): (v: EmojiValue)
    ensures status in ObjectPrototypeMembers ==> v == PrototypeMember(status)
    ensures status !in ObjectPrototypeMembers ==> v == Symbol(StatusEmoji(status))
  {
    if status == Hot then Symbol(HotEmoji)
    else if status == Warm then Symbol(WarmEmoji)
    else if status == Cold then Symbol(ColdEmoji)
    else if status in ObjectPrototypeMembers then PrototypeMember(status)
    else Symbol(DefaultEmoji)
  }

  /** The as-written lookup gives a status named "toString" no white circle; the corrected one does. */
  lemma PrototypeStatusMissesDefault()
    ensures StatusEmojiAsWritten("toString") != Symbol(DefaultEmoji)
    ensures StatusEmoji("toString") == DefaultEmoji
  {
    assert "toString" !in ClassifiedStatuses;
  }

  const MsPerDay := 1000 * 60 * 60 * 24

  /** `Math.floor((now - createdAt) / MsPerDay)`: whole days elapsed, rounded down. */
  function DaysAgo(now: int, createdAt: int): (d: int)
    ensures d * MsPerDay <= now - createdAt < (d + 1) * MsPerDay
  {
    (now - createdAt) / MsPerDay
  }

  /** `dateStr`: "Today" exactly when no whole day has passed, else "<days>d ago". */
  function DateLabel(now: int, createdAt: int): (text: string)
    ensures text == "Today" <==> DaysAgo(now, createdAt) == 0
    ensures DaysAgo(now, createdAt) != 0 ==> text == IntToString(DaysAgo(now, createdAt)) + "d ago"
  {
    var d := DaysAgo(now, createdAt);
    if d == 0 then "Today"
    else
      var text := IntToString(d) + "d ago";
      assert text[|text| - 1] == 'o';
      text
  }

  /** The age label of a lead created within the last day is "Today". */
  lemma SameDayIsToday(now: int, createdAt: int)
    requires createdAt <= now < createdAt + MsPerDay
    ensures DateLabel(now, createdAt) == "Today"
  {
  }

  /** What one lead card shows besides the lead's own fields. */
  datatype Card = Card(lead: Lead, emoji: string, dateLabel: string)

  /** The lead list: the empty state, or one card per visible lead. */
  datatype View = EmptyState | Cards(cards: seq<Card>)

  function CardOf(lead: Lead, now: int): (card: Card)
    ensures card.lead == lead
    ensures card.emoji == DefaultEmoji <==> lead.status !in ClassifiedStatuses
    ensures card.dateLabel == "Today" <==> lead.createdAt <= now < lead.createdAt + MsPerDay
  {
    Card(lead, StatusEmoji(lead.status), DateLabel(now, lead.createdAt))
  }

  /** `renderLeads` followed by `renderLeadCard` for each lead shown. */
  function Render(leads: seq<Lead>, filter: string, now: int): (v: View)
    ensures v.EmptyState? <==> Visible(leads, filter) == []
    ensures v.Cards? ==> |v.cards| == |Visible(leads, filter)|
    ensures v.Cards? ==> forall i :: 0 <= i < |v.cards| ==>
      v.cards[i] == CardOf(Visible(leads, filter)[i], now)
  {
    var shown := Visible(leads, filter);
    if shown == [] then EmptyState
    else Cards(seq(|shown|, i requires 0 <= i < |shown| => CardOf(shown[i], now)))
  }
}
