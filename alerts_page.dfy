/** The alerts page: the initial alert list (SOS tourists, then tourists
    silent for more than twenty minutes), the alert type shown for a tourist,
    the tourist search, and the page state changed by acknowledging an alert,
    selecting a tourist and typing a search term. */
module Alerts {
  import opened Collections
  import opened JsText
  import opened MockData

  /** Minutes of silence after which a non-SOS tourist raises an alert. */
  const INACTIVITY_MINUTES := 20

  /** `t.lastActiveTime && parseInt(t.lastActiveTime.split(' ')[0]) > 20`:
      an absent or empty time, or a first word that is not a number, is not
      over the threshold. */
  predicate SilentTooLong(t: Tourist)
  {
    match t.lastActiveTime
    case None => false
    case Some(s) =>
      s != "" &&
      match ParseInt(FirstToken(s))
      case None => false
      case Some(minutes) => minutes > INACTIVITY_MINUTES
  }

  /** The second filter of the alert list: no SOS, silent too long. */
  predicate IsInactivityAlert(t: Tourist)
  {
    !IsSos(t) && SilentTooLong(t)
  }

  /** The alert list the page starts with: every SOS tourist, then every
      inactive non-SOS tourist, each group in the order of `all`. */
  function DeriveAlerts(all: seq<Tourist>): (r: seq<Tourist>)
    ensures forall t :: t in r <==> t in all && (IsSos(t) || IsInactivityAlert(t))
  {
    SosTourists(all) + Filter(IsInactivityAlert, all)
  }

  /** The alert list is the SOS tourists of `all`, then the inactivity
      alerts of `all`, each group a subsequence of `all`. */
  lemma AlertsGroups(all: seq<Tourist>)
    ensures var r, k := DeriveAlerts(all), |SosTourists(all)|;
      k <= |r| && r[..k] == SosTourists(all) && r[k..] == Filter(IsInactivityAlert, all) &&
      SubseqOf(r[..k], all) && SubseqOf(r[k..], all)
  {
    var sos, inactive := SosTourists(all), Filter(IsInactivityAlert, all);
    assert (sos + inactive)[..|sos|] == sos && (sos + inactive)[|sos|..] == inactive;
    FilterIsSubseq(IsSos, all);
    FilterIsSubseq(IsInactivityAlert, all);
  }

  /** The alert list is the SOS tourists of `all` in order, followed by the
      inactive tourists of `all` in order, so every SOS entry comes before
      every other entry. */
  lemma AlertsSosFirst(all: seq<Tourist>)
    ensures var r, k := DeriveAlerts(all), |SosTourists(all)|;
      k <= |r| &&
      SubseqOf(r[..k], all) && SubseqOf(r[k..], all) &&
      (forall i :: 0 <= i < k ==> IsSos(r[i])) &&
      (forall i :: k <= i < |r| ==> IsInactivityAlert(r[i])) &&
      (forall i, j :: 0 <= i < j < |r| && IsSos(r[j]) ==> IsSos(r[i]))
  {
    AlertsGroups(all);
    FilterPairOrdered(IsSos, IsInactivityAlert, all);
  }

  /** When tourist ids are unique, no tourist appears twice in the alert
      list: each group keeps ids unique and no tourist is in both groups. */
  lemma AlertsUnique(all: seq<Tourist>)
    requires KeysUnique(all, TouristId)
    ensures KeysUnique(DeriveAlerts(all), TouristId)
  {
    var sos, inactive := SosTourists(all), Filter(IsInactivityAlert, all);
    FilterIsSubseq(IsSos, all);
    FilterIsSubseq(IsInactivityAlert, all);
    SubseqKeysUnique(sos, all, TouristId);
    SubseqKeysUnique(inactive, all, TouristId);
    forall x, y | x in sos && y in inactive
      ensures TouristId(x) != TouristId(y)
    {
      if TouristId(x) == TouristId(y) {
        KeysUniqueSameKey(all, TouristId, x, y);
      }
    }
    KeysUniqueConcat(sos, inactive, TouristId);
  }

  /** The first word of "<word> <rest>" is `word` when it has no space. */
  lemma {:induction false} FirstTokenOf(word: string, rest: string)
    requires ' ' !in word
    ensures FirstToken(word + " " + rest) == word
  {
    if word != [] {
      assert (word + " " + rest)[1..] == word[1..] + " " + rest;
      FirstTokenOf(word[1..], rest);
    } else {
      assert word + " " + rest == " " + rest;
    }
  }

  /** A last-active time written "<n> <anything>", such as "25 minutes ago",
      is over the threshold exactly when n > 20. */
  lemma SilentForMinutes(t: Tourist, n: nat, rest: string)
    requires t.lastActiveTime == Some(DecimalString(n) + " " + rest)
    ensures SilentTooLong(t) <==> n > INACTIVITY_MINUTES
  {
    var d := DecimalString(n);
    assert ' ' !in d;
    FirstTokenOf(d, rest);
    ParseDecimal(n, "");
    assert d + "" == d;
  }

  /** A non-SOS tourist whose last-active time is absent, or whose first word
      has no decimal digit after its white space and sign (parseInt gives
      NaN), is never in the alert list. */
  lemma UnreadableTimeNoAlert(t: Tourist, all: seq<Tourist>)
    requires !IsSos(t)
    requires t.lastActiveTime.Some? ==> NoLeadingDigit(FirstToken(t.lastActiveTime.value))
    ensures t !in DeriveAlerts(all)
  {
    if t.lastActiveTime.Some? {
      NoLeadingNumber(FirstToken(t.lastActiveTime.value));
    }
  }

  /** The kinds of alert the page shows: 'sos' | 'inactive' | 'unregistered'. */
  datatype AlertType = Sos | Inactive | Unregistered

  /** `getAlertType`. Its staleness test decides nothing: both of its
      outcomes are `Inactive`. */
  function GetAlertType(t: Tourist): (r: AlertType)
    ensures r == Sos <==> IsSos(t)
    ensures r == Unregistered <==> !IsSos(t) && !t.idIssued
    ensures r == Inactive <==> !IsSos(t) && t.idIssued
  {
    if IsSos(t) then Sos
    else if !t.idIssued then Unregistered
    else if SilentTooLong(t) then Inactive
    else Inactive
  }

  /** In the alert list, every entry of type `Sos` precedes every entry of
      another type, and the entries of other types are exactly the
      inactivity alerts. */
  lemma AlertTypesOrdered(all: seq<Tourist>)
    ensures var r := DeriveAlerts(all);
      forall i, j :: 0 <= i < j < |r| && GetAlertType(r[j]) == Sos ==> GetAlertType(r[i]) == Sos
    ensures forall t :: t in DeriveAlerts(all) && GetAlertType(t) != Sos ==> IsInactivityAlert(t)
  {
    AlertsSosFirst(all);
  }

  /** The search test of the tourist list: the search term, lower-cased,
      occurs in the lower-cased name, nationality (when present) or id. */
  predicate MatchesSearch(t: Tourist, term: string)
  {
    var q := ToLower(term);
    Includes(ToLower(t.name), q)
    || (t.nationality.Some? && Includes(ToLower(t.nationality.value), q))
    || Includes(ToLower(t.id), q)
  }

  /** `filteredTourists`. */
  function SearchTourists(all: seq<Tourist>, term: string): (r: seq<Tourist>)
    ensures forall t :: t in r <==> t in all && MatchesSearch(t, term)
  {
    Filter((t: Tourist) => MatchesSearch(t, term), all)
  }

  /** The search result is the tourists that match, in their order, each
      with all its occurrences. */
  lemma SearchKeepsOrder(all: seq<Tourist>, term: string)
    ensures SubseqOf(SearchTourists(all, term), all)
    ensures forall t :: MatchesSearch(t, term) ==>
      multiset(SearchTourists(all, term))[t] == multiset(all)[t]
  {
    FilterIsSubseq((t: Tourist) => MatchesSearch(t, term), all);
    forall t | MatchesSearch(t, term)
      ensures multiset(SearchTourists(all, term))[t] == multiset(all)[t]
    {
      FilterMultiplicity((t: Tourist) => MatchesSearch(t, term), all, t);
    }
  }

  /** An empty search term lists every tourist. */
  lemma EmptySearchListsAll(all: seq<Tourist>)
    ensures SearchTourists(all, "") == all
  {
    forall t | t in all
      ensures MatchesSearch(t, "")
    {
      IncludesEmpty(ToLower(t.id));
    }
    FilterKeepsAll((t: Tourist) => MatchesSearch(t, ""), all);
  }

  /** Two terms that differ only in the case of ASCII letters give the same
      search result. */
  lemma {:induction false} SearchIgnoresCase(all: seq<Tourist>, a: string, b: string)
    requires ToLower(a) == ToLower(b)
    ensures SearchTourists(all, a) == SearchTourists(all, b)
  {
    if all != [] {
      FilterCons((t: Tourist) => MatchesSearch(t, a), all[0], all[1..]);
      FilterCons((t: Tourist) => MatchesSearch(t, b), all[0], all[1..]);
      assert all == [all[0]] + all[1..];
      SearchIgnoresCase(all[1..], a, b);
    }
  }

  /** The state of the alerts page. `derived` is the list the alerts were
      loaded with; acknowledging only ever deletes from it. */
  class AlertsView {
    var searchTerm: string
    var selectedTourist: Option<Tourist>
    var alerts: seq<Tourist>
    ghost var derived: seq<Tourist>

    ghost predicate Valid()
      reads this
    {
      SubseqOf(alerts, derived)
    }

    /** The page before its effect has run: no alerts, no selection, empty search. */
    constructor ()
      ensures Valid()
      ensures searchTerm == "" && selectedTourist == None && alerts == []
    {
      searchTerm := "";
      selectedTourist := None;
      alerts := [];
      derived := [];
    }

    /** The mount effect: derive the alerts from the zones' tourists. */
    method LoadAlerts(zones: seq<Zone>)
      modifies this
      ensures Valid()
      ensures alerts == DeriveAlerts(AllTourists(zones)) && derived == alerts
      ensures searchTerm == old(searchTerm) && selectedTourist == old(selectedTourist)
    {
      alerts := DeriveAlerts(AllTourists(zones));
      derived := alerts;
      SubseqRefl(alerts);
    }

    /** `handleAcknowledgeAlert`: drop every entry with that id. */
    method AcknowledgeAlert(touristId: string)
      requires Valid()
      modifies this`alerts
      ensures Valid()
      ensures alerts == WithoutId(old(alerts), touristId)
      ensures forall t :: t in alerts ==> t.id != touristId
    {
      WithoutIdKeepsOthers(alerts, touristId);
      SubseqTrans(WithoutId(alerts, touristId), alerts, derived);
      alerts := WithoutId(alerts, touristId);
    }

    /** Opening a tourist's profile. */
    method SelectTourist(t: Tourist)
      modifies this`selectedTourist
      ensures selectedTourist == Some(t)
    {
      selectedTourist := Some(t);
    }

    /** Closing the profile. */
    method CloseProfile()
      modifies this`selectedTourist
      ensures selectedTourist == None
    {
      selectedTourist := None;
    }

    /** Typing in the search box. */
    method SetSearchTerm(term: string)
      modifies this`searchTerm
      ensures searchTerm == term
    {
      searchTerm := term;
    }

    /** The tourists listed under the search box. */
    function FilteredTourists(zones: seq<Zone>): (r: seq<Tourist>)
      reads this
      ensures forall t :: t in r <==> t in AllTourists(zones) && MatchesSearch(t, searchTerm)
    {
      SearchTourists(AllTourists(zones), searchTerm)
    }
  }

  /** Of the seeded non-SOS tourists only T007 ("25 minutes ago") has been
      silent for more than twenty minutes; one lemma per tourist. */
  lemma SeededT001Silence()
    ensures !SilentTooLong(T001)
  {
    assert DecimalString(5) == "5";
    assert "5" + " " + "minutes ago" == "5 minutes ago";
    SilentForMinutes(T001, 5, "minutes ago");
  }

  lemma SeededT002Silence()
    ensures !SilentTooLong(T002)
  {
    assert DecimalString(3) == "3";
    assert "3" + " " + "minutes ago" == "3 minutes ago";
    SilentForMinutes(T002, 3, "minutes ago");
  }

  lemma SeededT004Silence()
    ensures !SilentTooLong(T004)
  {
    assert DecimalString(8) == "8";
    assert "8" + " " + "minutes ago" == "8 minutes ago";
    SilentForMinutes(T004, 8, "minutes ago");
  }

  lemma SeededT005Silence()
    ensures !SilentTooLong(T005)
  {
    assert DecimalString(12) == "12";
    assert "12" + " " + "minutes ago" == "12 minutes ago";
    SilentForMinutes(T005, 12, "minutes ago");
  }

  lemma SeededT006Silence()
    ensures !SilentTooLong(T006)
  {
    assert DecimalString(15) == "15";
    assert "15" + " " + "minutes ago" == "15 minutes ago";
    SilentForMinutes(T006, 15, "minutes ago");
  }

  lemma SeededT007Silence()
    ensures SilentTooLong(T007)
  {
    assert DecimalString(25) == "25";
    assert "25" + " " + "minutes ago" == "25 minutes ago";
    SilentForMinutes(T007, 25, "minutes ago");
  }

  lemma SeededT009Silence()
    ensures !SilentTooLong(T009)
  {
    assert DecimalString(10) == "10";
    assert "10" + " " + "minutes ago" == "10 minutes ago";
    SilentForMinutes(T009, 10, "minutes ago");
  }

  lemma SeededT010Silence()
    ensures !SilentTooLong(T010)
  {
    assert DecimalString(7) == "7";
    assert "7" + " " + "minutes ago" == "7 minutes ago";
    SilentForMinutes(T010, 7, "minutes ago");
  }

  /** The inactivity alerts among the first five seeded tourists: none. */
  lemma SeededInactiveFront()
    ensures Filter(IsInactivityAlert, [T001, T002, T003, T004, T005]) == []
  {
    SeededT001Silence();
    SeededT002Silence();
    SeededT004Silence();
    SeededT005Silence();
    FilterCons(IsInactivityAlert, T005, []);
    FilterCons(IsInactivityAlert, T004, [T005]);
    FilterCons(IsInactivityAlert, T003, [T004, T005]);
    FilterCons(IsInactivityAlert, T002, [T003, T004, T005]);
    FilterCons(IsInactivityAlert, T001, [T002, T003, T004, T005]);
  }

  /** The inactivity alerts among the last five seeded tourists: T007. */
  lemma SeededInactiveBack()
    ensures Filter(IsInactivityAlert, [T006, T007, T008, T009, T010]) == [T007]
  {
    SeededT006Silence();
    SeededT007Silence();
    SeededT009Silence();
    SeededT010Silence();
    FilterCons(IsInactivityAlert, T010, []);
    FilterCons(IsInactivityAlert, T009, [T010]);
    FilterCons(IsInactivityAlert, T008, [T009, T010]);
    FilterCons(IsInactivityAlert, T007, [T008, T009, T010]);
    FilterCons(IsInactivityAlert, T006, [T007, T008, T009, T010]);
  }

  /** The one seeded tourist flagged for inactivity is T007. */
  lemma SeededInactive()
    ensures Filter(IsInactivityAlert, AllTourists(MOCK_ZONES)) == [T007]
  {
    var front := [T001, T002, T003, T004, T005];
    var back := [T006, T007, T008, T009, T010];
    SeededTourists();
    assert AllTourists(MOCK_ZONES) == front + back;
    SeededInactiveFront();
    SeededInactiveBack();
    FilterConcat(IsInactivityAlert, front, back);
  }

  /** On the seeded data the page starts with T003, T008 (SOS) and T007
      (silent for 25 minutes). */
  lemma SeededAlerts()
    ensures DeriveAlerts(AllTourists(MOCK_ZONES)) == [T003, T008, T007]
  {
    SeededSos();
    SeededInactive();
  }

  /** How the page labels the seeded alerts: T003 and T008 as SOS, and T007,
      listed for its silence, as unregistered because it has no identity
      issued. */
  lemma SeededAlertTypes()
    ensures GetAlertType(T003) == Sos && GetAlertType(T008) == Sos
    ensures GetAlertType(T007) == Unregistered
  {
  }

  /** Acknowledging T003 on the seeded page leaves T008 and T007. */
  lemma SeededAcknowledge()
    ensures WithoutId([T003, T008, T007], "T003") == [T008, T007]
  {
    FilterCons((t: Tourist) => t.id != "T003", T007, []);
    FilterCons((t: Tourist) => t.id != "T003", T008, [T007]);
    FilterCons((t: Tourist) => t.id != "T003", T003, [T008, T007]);
  }
}
