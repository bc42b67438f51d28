/**
 * The string core of the controller GUI in `controller.py`: the list of
 * infected laptops it renders as `"<id> - <role> (Last Seen: <t>)"`, the
 * click handler that reads an id back out of an entry, the lookup that
 * parses an entry back into its fields, and the receive loop that updates
 * the controller's id and its list.
 *
 * The Tk listbox is the `entries` field; JSON values the controller reads
 * are strings as `str()` renders them.
 */
module Controller {
  import opened Wrappers
  import opened Text

  /** A JSON object with string values. */
  type Fields = map<string, string>

  /** One item of `infected_laptops.items()`; `info` is `None` when its value is not a JSON object. */
  datatype Laptop = Laptop(id: string, info: Option<Fields>)

  /** What `fetch_laptop_data` returns; its `data` is always `{}`. */
  datatype LaptopData = LaptopData(role: string, lastSeen: string)

  const UnknownLaptop := LaptopData("Unknown", "N/A")

  /** The text before the role: `"<id> - "`. */
  const Dash := " - "
  /** The text between role and time. */
  const SeenOpen := " (Last Seen: "
  const SeenLabel := "Last Seen: "

  // ---------------------------------------------------------------------------
  // Entries

  /** The listbox text of one laptop. */
  function FormatEntry(id: string, role: string, lastSeen: string): string {
    id + Dash + role + SeenOpen + lastSeen + ")"
  }

  /** The entry `update_infected_list` renders for a laptop whose value is an object: missing fields read as defaults. */
  function Entry(id: string, info: Fields): (r: string)
    ensures StartsWith(r, id)
  {
    FormatEntry(id, Get(info, "role").GetOr("Unknown Role"), Get(info, "last_seen").GetOr("N/A"))
  }

  /** The entries rendered for `laptops`, in order, up to the first whose value is not an object (where `.get` raises). */
  function Rendered(laptops: seq<Laptop>): seq<string> {
    if laptops == [] || laptops[0].info.None? then []
    else [Entry(laptops[0].id, laptops[0].info.value)] + Rendered(laptops[1..])
  }

  /** Every value of the mapping is an object, so the loop of `update_infected_list` runs to the end. */
  predicate AllObjects(laptops: seq<Laptop>) {
    forall i :: 0 <= i < |laptops| ==> laptops[i].info.Some?
  }

  /** `laptop_info.split(' - ')[0]`: the id `show_infected_info` reads out of an entry. */
  function SelectedId(entry: string): (r: string)
    ensures StartsWith(entry, r) && !Contains(r, Dash)
    ensures Contains(entry, Dash) ==> OccursAt(entry, Dash, |r|)
  {
    BeforeHasNone(entry, Dash);
    Before(entry, Dash)
  }

  /**
   * The parse of `fetch_laptop_data`: the role is the text between the
   * first and the second `" - "`, cut before `" ("`; the time is the text
   * between the first and the second `"Last Seen: "`, without trailing
   * `")"`. `None`: the IndexError when a separator is missing.
   */
  function ParseEntry(entry: string): (r: Option<LaptopData>)
    ensures r.Some? <==> Contains(entry, Dash) && Contains(entry, SeenLabel)
  {
    var afterDash := After(entry, Dash);
    var afterLabel := After(entry, SeenLabel);
    if afterDash.None? || afterLabel.None? then None
    else
      Some(LaptopData(Before(Before(afterDash.value, Dash), " ("),
                      RStripChar(Before(afterLabel.value, SeenLabel), ')')))
  }

  /** The index of the first entry that starts with `id`, or `|entries|`. */
  function FirstStartingWith(entries: seq<string>, id: string): (k: nat)
    ensures k <= |entries|
    ensures k < |entries| ==> StartsWith(entries[k], id)
    ensures forall j :: 0 <= j < k ==> !StartsWith(entries[j], id)
  {
    if entries == [] then 0
    else if StartsWith(entries[0], id) then 0
    else 1 + FirstStartingWith(entries[1..], id)
  }

  /** `fetch_laptop_data(laptop_id)` over the listbox entries. */
  function FetchSpec(entries: seq<string>, id: string): (r: Option<LaptopData>)
    ensures (forall i :: 0 <= i < |entries| ==> !StartsWith(entries[i], id)) ==> r == Some(UnknownLaptop)
    ensures forall i :: 0 <= i < |entries| && StartsWith(entries[i], id) && FirstStartingWith(entries, id) == i ==> r == ParseEntry(entries[i])
  {
    var k := FirstStartingWith(entries, id);
    if k < |entries| then ParseEntry(entries[k]) else Some(UnknownLaptop)
  }

  // ---------------------------------------------------------------------------
  // Round trips of the entry format

  /** Reading the id back out of an entry gives the id, when the id has no `" - "` and does not end in `" -"`. */
  lemma EntryIdRoundTrip(id: string, role: string, lastSeen: string)
    requires !Contains(id, Dash) && !EndsWith(id, " -")
    ensures SelectedId(FormatEntry(id, role, lastSeen)) == id
    ensures After(FormatEntry(id, role, lastSeen), Dash) == Some(role + SeenOpen + lastSeen + ")")
  {
    DashSeparatorSafe(id);
    var rest := role + SeenOpen + lastSeen + ")";
    assert FormatEntry(id, role, lastSeen) == id + Dash + rest;
    SplitConcat(id, Dash, rest);
  }

  /** The first `" - "` after a role with no `" - "`, not ending in `" -"`, comes after the `" ("` that follows it. */
  lemma DashAfterParen(role: string, tail: string)
    requires !Contains(role, Dash) && !EndsWith(role, " -")
    ensures Find(role + " (" + tail, Dash) >= |role| + 2
  {
    var s := role + " (" + tail;
    assert forall i :: 0 <= i < |role| ==> s[i] == role[i];
    assert s[|role|] == ' ' && s[|role| + 1] == '(';
    forall j: nat | j < |role| + 2 ensures !OccursAt(s, Dash, j) {
      if j + 3 <= |s| {
        var w := s[j..j + 3];
        if j + 3 <= |role| {
          assert w == role[j..j + 3];
          assert !OccursAt(role, Dash, j);
        } else if j + 2 == |role| {
          assert w[..2] == role[|role| - 2..];
        } else if j + 1 == |role| {
          assert w[1] == ' ';
        } else if j == |role| {
          assert w[1] == '(';
        } else {
          assert w[0] == '(';
        }
      }
    }
  }

  /** The role is the text before `" ("` in the text before the next `" - "`. */
  lemma RoleRoundTrip(role: string, tail: string)
    requires !Contains(role, Dash) && !EndsWith(role, " -") && !Contains(role, " (")
    ensures Before(Before(role + " (" + tail, Dash), " (") == role
  {
    var rest := role + " (" + tail;
    DashAfterParen(role, tail);
    var k := Find(rest, Dash);
    var y := tail[..k - |role| - 2];
    assert rest[..k] == role + " (" + y;
    ParenSeparatorSafe(role);
    SplitConcat(role, " (", y);
  }

  /** `rstrip(c)` removes one appended `c` from a string that does not end in `c`. */
  lemma RStripCharAppended(s: string, c: char)
    requires s == "" || s[|s| - 1] != c
    ensures RStripChar(s + [c], c) == s
  {
    assert (s + [c])[..|s|] == s;
  }

  /** The time is the text after the first `"Last Seen: "`, with the closing `")"` stripped. */
  lemma LastSeenRoundTrip(head: string, lastSeen: string)
    requires |head| > 0 && head[|head| - 1] == '(' && !Contains(head, SeenLabel)
    requires !Contains(lastSeen, SeenLabel) && !EndsWith(lastSeen, ")")
    ensures After(head + SeenLabel + (lastSeen + ")"), SeenLabel) == Some(lastSeen + ")")
    ensures RStripChar(Before(lastSeen + ")", SeenLabel), ')') == lastSeen
  {
    NoEarlyMatchByLastChar(head, SeenLabel);
    SplitConcat(head, SeenLabel, lastSeen + ")");
    AppendForeignChar(lastSeen, ')', SeenLabel);
    if lastSeen != "" {
      assert lastSeen[|lastSeen| - 1..] != ")";
    }
    RStripCharAppended(lastSeen, ')');
  }

  /** The two ways `fetch_laptop_data` cuts an entry: around the first `" - "` and around the first `"Last Seen: "`. */
  lemma EntryPieces(id: string, role: string, lastSeen: string)
    ensures FormatEntry(id, role, lastSeen) == id + Dash + (role + " (" + (SeenLabel + lastSeen + ")"))
    ensures FormatEntry(id, role, lastSeen) == (id + Dash + role + " (") + SeenLabel + (lastSeen + ")")
  {
    assert SeenOpen == " (" + SeenLabel;
  }

  /** An entry parses back into the role and time it was rendered from. */
  lemma EntryRoundTrip(id: string, role: string, lastSeen: string)
    requires !Contains(id, Dash) && !EndsWith(id, " -")
    requires !Contains(role, Dash) && !EndsWith(role, " -") && !Contains(role, " (")
    requires !Contains(id + Dash + role + " (", SeenLabel)
    requires !Contains(lastSeen, SeenLabel) && !EndsWith(lastSeen, ")")
    ensures ParseEntry(FormatEntry(id, role, lastSeen)) == Some(LaptopData(role, lastSeen))
  {
    var tail := SeenLabel + lastSeen + ")";
    var head := id + Dash + role + " (";
    EntryPieces(id, role, lastSeen);
    DashSeparatorSafe(id);
    SplitConcat(id, Dash, role + " (" + tail);
    RoleRoundTrip(role, tail);
    LastSeenRoundTrip(head, lastSeen);
  }

  /**
   * The lookup matches by prefix: with a laptop `ab` listed before a laptop
   * `a`, looking up `a` parses the entry of `ab`.
   */
  lemma FetchMatchesByPrefix()
    ensures FetchSpec([FormatEntry("ab", "infected", "1"), FormatEntry("a", "controller", "2")], "a")
      == ParseEntry(FormatEntry("ab", "infected", "1"))
    ensures FetchSpec([FormatEntry("ab", "infected", "1"), FormatEntry("a", "controller", "2")], "a")
      != Some(LaptopData("controller", "2"))
  {
    var entries := [FormatEntry("ab", "infected", "1"), FormatEntry("a", "controller", "2")];
    assert entries[0][..1] == "a";
    assert StartsWith(entries[0], "a");
    NoFirstChar("ab", SeenLabel);
    NoFirstChar("1", SeenLabel);
    NoFirstChar("infected", Dash);
    NoFirstChar("ab", Dash);
    NoFirstChar("infected", " (");
    assert !EndsWith("ab", " -") by { assert "ab"[0..] != " -"; }
    assert !EndsWith("infected", " -") by { assert "infected"[6..] != " -"; }
    assert !EndsWith("1", ")");
    assert !Contains("ab" + Dash + "infected" + " (", SeenLabel) by {
      NoFirstChar("ab" + Dash + "infected" + " (", SeenLabel);
    }
    EntryRoundTrip("ab", "infected", "1");
  }

  // ---------------------------------------------------------------------------
  // The receive loop, on values

  /** A frame as `json.loads` returns it: `Malformed` when it is not JSON or not an object. */
  datatype Incoming =
    | Malformed
    | Message(fields: Fields, laptops: LaptopsValue)

  /** The `infected_laptops` value of a frame. */
  datatype LaptopsValue = Absent | NotAnObject | Laptops(items: seq<Laptop>)

  /** The controller's state the receive loop touches. */
  datatype View = View(clientId: Option<string>, entries: seq<string>)

  /** The state after one frame, and whether the loop goes on (`false`: the exception that breaks it). */
  datatype Step = Step(view: View, ok: bool)

  predicate IsType(m: Incoming, t: string) {
    m.Message? && Get(m.fields, "type") == Some(t)
  }

  /** One pass of the body of `listen_for_responses`. */
  function Receive(v: View, m: Incoming): (r: Step)
    ensures r.view.clientId != v.clientId ==>
      IsType(m, "assign_id") && "client_id" in m.fields && r.view.clientId == Some(m.fields["client_id"])
    ensures r.view.entries != v.entries ==> IsType(m, "infected_list")
    ensures IsType(m, "assign_id") ==> (r.ok <==> "client_id" in m.fields)
    ensures IsType(m, "assign_id") && "client_id" in m.fields ==> r.view.clientId == Some(m.fields["client_id"])
    ensures IsType(m, "assign_id") && "client_id" !in m.fields ==> r == Step(v, false)
    ensures IsType(m, "response") ==> r.view == v && (r.ok <==> "id" in m.fields && "response" in m.fields)
    ensures m.Malformed? ==> r == Step(v, false)
    ensures IsType(m, "infected_list") ==>
      && (m.laptops.Absent? ==> r == Step(v, false))
      && (m.laptops.NotAnObject? ==> r == Step(v.(entries := []), false))
      && (m.laptops.Laptops? ==>
            r.view == v.(entries := Rendered(m.laptops.items)) && (r.ok <==> AllObjects(m.laptops.items)))
    ensures m.Message? && !IsType(m, "assign_id") && !IsType(m, "response") && !IsType(m, "infected_list") ==>
      r == Step(v, true)
  {
    if m.Malformed? then Step(v, false)
    else if IsType(m, "assign_id") then
      if "client_id" in m.fields then Step(v.(clientId := Some(m.fields["client_id"])), true) else Step(v, false)
    else if IsType(m, "response") then
      Step(v, "id" in m.fields && "response" in m.fields)
    else if IsType(m, "infected_list") then
      match m.laptops
      case Absent => Step(v, false)
      case NotAnObject => Step(v.(entries := []), false)
      case Laptops(items) => Step(v.(entries := Rendered(items)), AllObjects(items))
    else Step(v, true)
  }

  /** The loop over `frames`: the state it leaves and how many frames it handled before an exception broke it. */
  function Listen(v: View, frames: seq<Incoming>): (r: (View, nat))
    ensures r.1 <= |frames|
    decreases |frames|
  {
    if frames == [] then (v, 0)
    else
      var s := Receive(v, frames[0]);
      if !s.ok then (s.view, 0)
      else
        var rest := Listen(s.view, frames[1..]);
        (rest.0, rest.1 + 1)
  }

  /** The client id after a run of handled frames: that of the last `assign_id` among them, or the one before. */
  function LastAssigned(id: Option<string>, frames: seq<Incoming>): Option<string>
    decreases |frames|
  {
    if frames == [] then id
    else if IsType(frames[0], "assign_id") && "client_id" in frames[0].fields then
      LastAssigned(Some(frames[0].fields["client_id"]), frames[1..])
    else LastAssigned(id, frames[1..])
  }

  /** The id the loop leaves is the last one assigned by the frames it handled, or by the frame that broke it. */
  lemma {:induction false} ListenKeepsLastAssignedId(v: View, frames: seq<Incoming>)
    ensures Listen(v, frames).0.clientId == LastAssigned(v.clientId, frames[..Listen(v, frames).1])
    decreases |frames|
  {
    if frames != [] {
      var s := Receive(v, frames[0]);
      if s.ok {
        ListenKeepsLastAssignedId(s.view, frames[1..]);
        var n := Listen(s.view, frames[1..]).1;
        assert frames[..n + 1][0] == frames[0];
        assert frames[..n + 1][1..] == frames[1..][..n];
      }
    }
  }

  // ---------------------------------------------------------------------------
  // The controller object

  /** The output of `show_infected_info`: the id it opens a window for, and the data fetched for it. */
  datatype InfoWindow = InfoWindow(id: string, data: Option<LaptopData>)

  class TrojanController {
    /** `self.client_id`. */
    var clientId: Option<string>
    /** The texts of `self.infected_listbox`, top to bottom. */
    var entries: seq<string>

    /** A controller starting from the id `load_client_id` read (`None`: no id file), with an empty list. */
    constructor (savedId: Option<string>)
      ensures clientId == savedId && entries == []
    {
      clientId := savedId;
      entries := [];
    }

    /**
     * `update_infected_list(infected_laptops)`: clears the list, then inserts
     * one entry per item in order. `value` is `None` when the value is not
     * an object; `ok` is `false` when `.items()` or a `.get` raised, with
     * the entries inserted so far kept.
     */
    method UpdateInfectedList(value: Option<seq<Laptop>>) returns (ok: bool)
      modifies this`entries
      ensures value.None? ==> entries == [] && !ok
      ensures value.Some? ==> entries == Rendered(value.value) && (ok <==> AllObjects(value.value))
    {
      entries := [];
      if value.None? {
        return false;
      }
      var laptops := value.value;
      var i := 0;
      while i < |laptops|
        invariant 0 <= i <= |laptops|
        invariant forall j :: 0 <= j < i ==> laptops[j].info.Some?
        invariant entries == Rendered(laptops[..i])
      {
        if laptops[i].info.None? {
          RenderedStopsAt(laptops, i);
          return false;
        }
        RenderedExtends(laptops, i);
        entries := entries + [Entry(laptops[i].id, laptops[i].info.value)];
        i := i + 1;
      }
      assert laptops[..i] == laptops;
      ok := true;
    }

    /** `fetch_laptop_data(laptop_id)`: the loop with its early return. */
    method FetchLaptopData(id: string) returns (data: Option<LaptopData>)
      ensures data == FetchSpec(entries, id)
    {
      var i := 0;
      while i < |entries|
        invariant 0 <= i <= |entries|
        invariant forall j :: 0 <= j < i ==> !StartsWith(entries[j], id)
      {
        if StartsWith(entries[i], id) {
          FirstIsAt(entries, id, i);
          return ParseEntry(entries[i]);
        }
        i := i + 1;
      }
      FirstIsAt(entries, id, i);
      data := Some(UnknownLaptop);
    }

    /** `show_infected_info`: a click on entry `selection` (`None`: nothing selected) opens the window of its id. */
    method ShowInfectedInfo(selection: Option<nat>) returns (window: Option<InfoWindow>)
      requires selection.Some? ==> selection.value < |entries|
      ensures selection.None? ==> window.None?
      ensures selection.Some? ==>
        window == Some(InfoWindow(SelectedId(entries[selection.value]), FetchSpec(entries, SelectedId(entries[selection.value]))))
    {
      if selection.None? {
        return None;
      }
      var laptopId := SelectedId(entries[selection.value]);
      var data := FetchLaptopData(laptopId);
      window := Some(InfoWindow(laptopId, data));
    }

    /** One frame of `listen_for_responses`; `ok` is `false` when the frame raised, which ends the loop. */
    method ListenStep(m: Incoming) returns (ok: bool)
      modifies this
      ensures Step(View(clientId, entries), ok) == Receive(View(old(clientId), old(entries)), m)
    {
      if m.Malformed? {
        return false;
      }
      if IsType(m, "assign_id") {
        if "client_id" !in m.fields {
          return false;
        }
        clientId := Some(m.fields["client_id"]);
        return true;
      } else if IsType(m, "response") {
        return "id" in m.fields && "response" in m.fields;
      } else if IsType(m, "infected_list") {
        if m.laptops.Absent? {
          return false;
        }
        ok := UpdateInfectedList(if m.laptops.NotAnObject? then None else Some(m.laptops.items));
        return;
      }
      return true;
    }

    /** `listen_for_responses` over the frames received until the connection closes. */
    method ListenForResponses(frames: seq<Incoming>) returns (handled: nat)
      modifies this
      ensures (View(clientId, entries), handled) == Listen(View(old(clientId), old(entries)), frames)
    {
      var i := 0;
      while i < |frames|
        invariant 0 <= i <= |frames|
        invariant var rest := Listen(View(clientId, entries), frames[i..]);
          Listen(View(old(clientId), old(entries)), frames) == (rest.0, rest.1 + i)
      {
        assert frames[i..][0] == frames[i] && frames[i..][1..] == frames[i + 1..];
        var ok := ListenStep(frames[i]);
        if !ok {
          return i;
        }
        i := i + 1;
      }
      return i;
    }
  }

  /** One more object in the mapping renders one more entry. */
  lemma {:induction false} RenderedExtends(laptops: seq<Laptop>, i: nat)
    requires i < |laptops| && forall j :: 0 <= j <= i ==> laptops[j].info.Some?
    ensures Rendered(laptops[..i + 1]) == Rendered(laptops[..i]) + [Entry(laptops[i].id, laptops[i].info.value)]
    decreases i
  {
    if i == 0 {
      assert laptops[..1] == [laptops[0]];
      assert laptops[..1][1..] == [];
    } else {
      RenderedExtends(laptops[1..], i - 1);
      assert laptops[..i + 1][1..] == laptops[1..][..i];
      assert laptops[..i][1..] == laptops[1..][..i - 1];
      assert laptops[1..][i - 1] == laptops[i];
    }
  }

  /** Rendering stops at the first value that is not an object. */
  lemma {:induction false} RenderedStopsAt(laptops: seq<Laptop>, i: nat)
    requires i < |laptops| && laptops[i].info.None? && forall j :: 0 <= j < i ==> laptops[j].info.Some?
    ensures Rendered(laptops) == Rendered(laptops[..i])
    decreases i
  {
    if i > 0 {
      RenderedStopsAt(laptops[1..], i - 1);
      assert laptops[..i][1..] == laptops[1..][..i - 1];
    }
  }

  /** The entries rendered: one per item up to the first value that is not an object, each the entry of its laptop. */
  lemma {:induction false} RenderedEntries(laptops: seq<Laptop>)
    ensures |Rendered(laptops)| <= |laptops|
    ensures AllObjects(laptops) ==> |Rendered(laptops)| == |laptops|
    ensures forall i :: 0 <= i < |Rendered(laptops)| ==>
      laptops[i].info.Some? && Rendered(laptops)[i] == Entry(laptops[i].id, laptops[i].info.value)
  {
    if laptops != [] && laptops[0].info.Some? {
      RenderedEntries(laptops[1..]);
      var r := Rendered(laptops);
      assert forall i :: 1 <= i < |r| ==> r[i] == Rendered(laptops[1..])[i - 1] && laptops[i] == laptops[1..][i - 1];
      if AllObjects(laptops) {
        assert AllObjects(laptops[1..]) by {
          forall i | 0 <= i < |laptops[1..]| ensures laptops[1..][i].info.Some? {
            assert laptops[1..][i] == laptops[i + 1];
          }
        }
      }
    }
  }

  /** `FirstStartingWith` is the index where the loop of `fetch_laptop_data` returns. */
  lemma {:induction false} FirstIsAt(entries: seq<string>, id: string, i: nat)
    requires i <= |entries| && (i < |entries| ==> StartsWith(entries[i], id))
    requires forall j :: 0 <= j < i ==> !StartsWith(entries[j], id)
    ensures FirstStartingWith(entries, id) == i
    decreases i
  {
    if i > 0 {
      assert !StartsWith(entries[0], id);
      FirstIsAt(entries[1..], id, i - 1);
    }
  }

  /**
   * A click on an entry of a list the controller rendered opens the window
   * of that laptop with its own role and time, when its fields meet the
   * conditions of the round trip and no earlier entry starts with its id.
   */
  lemma ClickShowsRenderedLaptop(laptops: seq<Laptop>, k: nat)
    requires k < |Rendered(laptops)| && k < |laptops| && laptops[k].info.Some?
    requires var l := laptops[k];
      var role, seen := Get(l.info.value, "role").GetOr("Unknown Role"), Get(l.info.value, "last_seen").GetOr("N/A");
      && !Contains(l.id, Dash) && !EndsWith(l.id, " -")
      && !Contains(role, Dash) && !EndsWith(role, " -") && !Contains(role, " (")
      && !Contains(l.id + Dash + role + " (", SeenLabel)
      && !Contains(seen, SeenLabel) && !EndsWith(seen, ")")
    requires forall j :: 0 <= j < k ==> !StartsWith(Rendered(laptops)[j], laptops[k].id)
    ensures var entries := Rendered(laptops);
      && SelectedId(entries[k]) == laptops[k].id
      && FetchSpec(entries, laptops[k].id)
         == Some(LaptopData(Get(laptops[k].info.value, "role").GetOr("Unknown Role"),
                            Get(laptops[k].info.value, "last_seen").GetOr("N/A")))
  {
    var entries := Rendered(laptops);
    var l := laptops[k];
    var role, seen := Get(l.info.value, "role").GetOr("Unknown Role"), Get(l.info.value, "last_seen").GetOr("N/A");
    RenderedEntries(laptops);
    assert entries[k] == FormatEntry(l.id, role, seen);
    EntryIdRoundTrip(l.id, role, seen);
    EntryRoundTrip(l.id, role, seen);
    assert entries[k][..|l.id|] == l.id;
    FirstIsAt(entries, l.id, k);
  }
}
