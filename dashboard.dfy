/**
 * `LeadTracker` from dashboard-script.js as a class: the fields its handlers update, the
 * requests it issues, the banners it shows, and what the lead list and the counters display.
 * `loadLeads` is asynchronous: `LoadLeads` is its part before the `await` (issuing the request)
 * and `CompleteLoad` the part after the request has ended.
 */
module Dashboard {
  import opened Wrappers
  import opened JsText
  import opened Leads

  /** A banner: the text passed to `showError` or `showSuccess`. */
  datatype Notice = ErrorNotice(message: string) | SuccessNotice(message: string)

  /** A `fetch` call: the URL and its `Authorization` header. */
  datatype Request = Request(url: string, authorization: string)

  const ContactsUrl := "https://api.hubapi.com/crm/v3/objects/contacts?limit=100"
  const BearerPrefix := "Bearer "
  const MissingKeyMessage := "Please enter your HubSpot API key"

  /** The success banner of a load: the count can be read back from between its two words. */
  function LoadedMessage(count: nat): (message: string)
    ensures |message| >= 14 && message[..7] == "Loaded " && message[|message| - 6..] == " leads"
    ensures IsDigits(message[7..|message| - 6]) && DigitsValue(message[7..|message| - 6]) == count
  {
    var digits := NatToString(count);
    var message := "Loaded " + digits + " leads";
    assert message[7..|message| - 6] == digits;
    DigitsValueOfNatToString(count);
    message
  }

  class LeadTracker {
    var leads: seq<Lead>
    var apiKey: string
    var currentFilter: string
    /** The `hubspot_api_key` entry of local storage. */
    var storedApiKey: Option<string>
    /** Every request issued, oldest first, and how many have not ended yet. */
    var requests: seq<Request>
    var pending: nat
    var notices: seq<Notice>
    /** What the lead list and the four counters show; None until first written. */
    var view: Option<View>
    var stats: Option<Stats>

    /** The dashboard on page load; a stored key (if non-empty) starts a load straight away. */
    constructor (stored: Option<string>)
      ensures apiKey == (if stored.Some? then stored.value else "")
      ensures storedApiKey == stored && leads == [] && currentFilter == AllFilter
      ensures requests == (if apiKey != "" then [Request(ContactsUrl, BearerPrefix + apiKey)] else [])
      ensures pending == |requests|
      ensures notices == [] && view == None && stats == None
    {
      leads := [];
      apiKey := if stored.Some? then stored.value else "";
      storedApiKey := stored;
      currentFilter := AllFilter;
      requests := [];
      pending := 0;
      notices := [];
      view := None;
      stats := None;
      new;
      if apiKey != "" {
        LoadLeads();
      }
    }

    /** `loadLeads` up to its `await`: one request for the contacts, with the current key. */
    method LoadLeads()
      modifies this`requests, this`pending
      ensures requests == old(requests) + [Request(ContactsUrl, BearerPrefix + apiKey)]
      ensures pending == old(pending) + 1
    {
      requests := requests + [Request(ContactsUrl, BearerPrefix + apiKey)];
      pending := pending + 1;
    }

    /**
     * `loadLeads` after one of its requests has ended: on success the leads are replaced, the
     * list and counters redrawn and a success banner shown; on any failure only an error
     * banner is added.
     */
    method CompleteLoad(outcome: FetchOutcome, now: int)
      requires pending > 0
      modifies this
      ensures pending == old(pending) - 1
      ensures apiKey == old(apiKey) && currentFilter == old(currentFilter)
      ensures storedApiKey == old(storedApiKey) && requests == old(requests)
      ensures LoadResult(outcome).Ok? ==>
        var loaded := LoadResult(outcome).value;
        && leads == loaded
        && view == Some(Render(loaded, currentFilter, now))
        && stats == Some(StatsOf(loaded))
        && notices == old(notices) + [SuccessNotice(LoadedMessage(|loaded|))]
      ensures LoadResult(outcome).Err? ==>
        && leads == old(leads) && view == old(view) && stats == old(stats)
        && notices == old(notices) + [ErrorNotice(LoadResult(outcome).error)]
    {
      pending := pending - 1;
      var result := LoadResult(outcome);
      if result.Ok? {
        ShowLoaded(result.value, now);
      } else {
        notices := notices + [ErrorNotice(result.error)];
      }
    }

    /** The success path of `loadLeads`: store the leads, redraw, and announce how many. */
    method ShowLoaded(loaded: seq<Lead>, now: int)
      modifies this`leads, this`view, this`stats, this`notices
      ensures leads == loaded
      ensures view == Some(Render(loaded, currentFilter, now))
      ensures stats == Some(StatsOf(loaded))
      ensures notices == old(notices) + [SuccessNotice(LoadedMessage(|loaded|))]
    {
      leads := loaded;
      RenderLeads(now);
      UpdateStats();
      notices := notices + [SuccessNotice(LoadedMessage(|leads|))];
    }

    /** `updateStats`. */
    method UpdateStats()
      modifies this`stats
      ensures stats == Some(StatsOf(leads))
    {
      var hot := WithStatus(leads, Hot);
      var warm := WithStatus(leads, Warm);
      var cold := WithStatus(leads, Cold);
      stats := Some(Stats(|leads|, |hot|, |warm|, |cold|));
    }

    /** `renderLeads`, with `now` the clock reading the cards' age labels use. */
    method RenderLeads(now: int)
      modifies this`view
      ensures view == Some(Render(leads, currentFilter, now))
    {
      var filtered := leads;
      if currentFilter != AllFilter {
        filtered := WithStatus(leads, currentFilter);
      }
      if |filtered| == 0 {
        view := Some(EmptyState);
        return;
      }
      view := Some(Cards(seq(|filtered|, i requires 0 <= i < |filtered| => CardOf(filtered[i], now))));
    }

    /**
     * `handleLoadClick`, with `raw` the key field's value: a blank key only reports an error;
     * otherwise the trimmed key becomes the key, is stored, and a load is started.
     */
    method HandleLoadClick(raw: string)
      modifies this
      ensures leads == old(leads) && currentFilter == old(currentFilter)
      ensures view == old(view) && stats == old(stats)
      ensures Trim(raw) == [] ==>
        && notices == old(notices) + [ErrorNotice(MissingKeyMessage)]
        && apiKey == old(apiKey) && storedApiKey == old(storedApiKey)
        && requests == old(requests) && pending == old(pending)
      ensures Trim(raw) != [] ==>
        && notices == old(notices)
        && apiKey == Trim(raw) && storedApiKey == Some(Trim(raw))
        && requests == old(requests) + [Request(ContactsUrl, BearerPrefix + Trim(raw))]
        && pending == old(pending) + 1
    {
      var key := Trim(raw);
      if key == [] {
        notices := notices + [ErrorNotice(MissingKeyMessage)];
        return;
      }
      apiKey := key;
      storedApiKey := Some(key);
      LoadLeads();
    }

    /** `handleFilterClick` on a button whose `data-filter` is `filter`. */
    method HandleFilterClick(filter: string, now: int)
      modifies this`currentFilter, this`view
      ensures currentFilter == filter
      ensures view == Some(Render(leads, filter, now))
    {
      currentFilter := filter;
      RenderLeads(now);
    }
  }

  /** A response with one contact whose lead status is "hot" gives the counts 1, 1, 0, 0. */
  method ScenarioOneHotContact(now: int)
  {
    var tracker := new LeadTracker(None);
    tracker.HandleLoadClick("key");
    var props := map["hs_lead_status" := "hot"];
    var contact := Contact("1", Some(props), now);
    var lead := ToLead("1", props, now);
    assert lead.status == Hot;
    assert ToLeads([contact]) == Some([lead]) by {
      assert [contact][0].properties.Some?;
      var r := ToLeads([contact]).value;
      assert |r| == 1 && r[0] == lead;
      assert r == [lead];
    }
    assert StatsOf([lead]) == Stats(1, 1, 0, 0) by {
      assert [lead][1..] == [];
    }
    tracker.CompleteLoad(Response(200, Json(Some([contact]))), now);
    assert tracker.stats == Some(Stats(1, 1, 0, 0));
  }
}
