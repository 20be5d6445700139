/**
 * The notification-preferences editor: enabling risks, collectors and
 * destinations, adding and removing extra e-mail addresses and phone numbers,
 * the accordion of sections, and the load and save transitions.
 */
module NotificationsPreferences {
  import opened Common
  import opened Ordering

  /** A risk or a message collector the user may be notified about. */
  datatype Entry = Entry(name: string, enabled: bool)

  /** An extra e-mail address or phone number, active once confirmed. */
  datatype Contact = Contact(active: bool, address: string)

  /** A delivery channel ("push", "sms", "email") and its extra contacts. */
  datatype Destination = Destination(destination: string, enabled: bool, additional: seq<Contact>)

  datatype Section = Risks | DataCollectors

  const EmailDestination: string := "email"
  const SmsDestination: string := "sms"

  /** The accordion section open when the editor appears: the collectors. */
  const InitialSection: int := 2

  /** Collectors are listed by lower-cased name. */
  function LowerName(e: Entry): string
  {
    ToLower(e.name)
  }

  /** `s` with entry `i` switched on or off. */
  function FlipAt(s: seq<Entry>, i: nat): (r: seq<Entry>)
    requires i < |s|
    ensures |r| == |s|
    ensures r[i].name == s[i].name && r[i].enabled == !s[i].enabled
    ensures forall j :: 0 <= j < |s| && j != i ==> r[j] == s[j]
  {
    s[i := s[i].(enabled := !s[i].enabled)]
  }

  /** Switching the same entry twice gives back the original list. */
  lemma FlipAtTwice(s: seq<Entry>, i: nat)
    requires i < |s|
    ensures FlipAt(FlipAt(s, i), i) == s
  {
    assert forall j :: 0 <= j < |s| ==> FlipAt(FlipAt(s, i), i)[j] == s[j];
  }

  /** Switching entries never changes any name, so the listing order is kept. */
  lemma FlipAtKeepsOrder(s: seq<Entry>, i: nat)
    requires i < |s| && SortedBy(s, LowerName)
    ensures SortedBy(FlipAt(s, i), LowerName)
  {
    var r := FlipAt(s, i);
    assert forall j :: 0 <= j < |s| ==> LowerName(r[j]) == LowerName(s[j]);
  }

  /** Position of the first destination named `d` (`destinations.find`). */
  function DestinationIndex(ds: seq<Destination>, d: string): (r: Option<nat>)
    ensures r.Some? ==> r.value < |ds| && ds[r.value].destination == d
    ensures r.Some? ==> forall j :: 0 <= j < r.value ==> ds[j].destination != d
    ensures r.None? <==> forall j :: 0 <= j < |ds| ==> ds[j].destination != d
  {
    FindFirst(ds, (x: Destination) => x.destination == d)
  }

  predicate HasDestination(ds: seq<Destination>, d: string)
  {
    exists j :: 0 <= j < |ds| && ds[j].destination == d
  }

  /**
   * `Array.prototype.splice(index, 1)` on a list: a negative index counts from
   * the end (clamped to the start), an index past the end removes nothing.
   */
  function SpliceOne<T>(s: seq<T>, index: int): (r: seq<T>)
    ensures 0 <= index < |s| ==>
              |r| == |s| - 1 &&
              (forall j :: 0 <= j < index ==> r[j] == s[j]) &&
              (forall j :: index <= j < |r| ==> r[j] == s[j + 1])
    ensures index >= |s| ==> r == s
    ensures |s| == 0 ==> r == []
    ensures index < 0 && |s| > 0 ==>
              var k := if |s| + index < 0 then 0 else |s| + index;
              |r| == |s| - 1 &&
              (forall j :: 0 <= j < k ==> r[j] == s[j]) &&
              (forall j :: k <= j < |r| ==> r[j] == s[j + 1])
  {
    var start := if index < 0 then (if |s| + index < 0 then 0 else |s| + index) else index;
    if start >= |s| then s else s[..start] + s[start + 1..]
  }

  /** Removing the contact just added gives back the previous list. */
  lemma SpliceOneUndoesAppend<T>(s: seq<T>, c: T)
    ensures SpliceOne(s + [c], |s|) == s
  {
    assert (s + [c])[..|s|] == s;
  }

  /** Removing contact `i` keeps every other contact, each as often as before. */
  lemma SpliceOneMultiset<T>(s: seq<T>, i: nat)
    requires i < |s|
    ensures multiset(SpliceOne(s, i)) + multiset{s[i]} == multiset(s)
  {
    assert s == s[..i] + [s[i]] + s[i + 1..];
  }

  /** Clicking accordion title `i`: closes it if open, otherwise opens it alone. */
  function AccordionClick(active: int, i: nat): (r: int)
    ensures r == -1 || r == i
    ensures r == i <==> active != i
  {
    if active == i then -1 else i
  }

  /**
   * Two clicks on the same title leave it as it was when it was open or when
   * nothing was open; when another section was open, it ends up closed.
   */
  lemma AccordionClickTwice(active: int, i: nat)
    ensures AccordionClick(AccordionClick(active, i), i) == (if active == i then i else -1)
    ensures AccordionClick(AccordionClick(active, i), i) == active <==> active == i || active == -1
  {
  }

  class NotificationsPreferences {
    var activeIndex: int
    var isLoading: bool
    var isSaving: bool
    var hasError: bool
    var risks: seq<Entry>
    var dataCollectors: seq<Entry>
    var destinations: seq<Destination>
    var newEmail: string
    var newPhone: string

    /** The collectors stay listed by lower-cased name. */
    ghost predicate Valid()
      reads this
    {
      SortedBy(dataCollectors, LowerName)
    }

    /** The e-mail "Add" button is enabled. */
    predicate AddEmailEnabled()
      reads this
    {
      !isSaving && !isLoading && |newEmail| > 0
    }

    constructor ()
      ensures Valid()
      ensures activeIndex == InitialSection && !isLoading && !isSaving && !hasError
      ensures risks == [] && dataCollectors == [] && destinations == []
      ensures newEmail == "" && newPhone == ""
    {
      activeIndex, isLoading, isSaving, hasError := InitialSection, false, false, false;
      risks, dataCollectors, destinations := [], [], [];
      newEmail, newPhone := "", "";
    }

    /** Mounting issues the preferences query. */
    method StartLoad()
      requires Valid()
      modifies this`isLoading
      ensures Valid() && isLoading
    {
      isLoading := true;
    }

    /** The preferences arrived: the collectors are stored sorted by lower-cased name. */
    method OnLoadSucceeded(loadedRisks: seq<Entry>, loadedCollectors: seq<Entry>, loadedDestinations: seq<Destination>)
      requires Valid()
      modifies this`risks, this`dataCollectors, this`destinations, this`isLoading
      ensures Valid() && !isLoading
      ensures risks == loadedRisks && destinations == loadedDestinations
      ensures multiset(dataCollectors) == multiset(loadedCollectors)
      ensures forall i, j :: 0 <= i < j < |dataCollectors| ==>
                LexLe(ToLower(dataCollectors[i].name), ToLower(dataCollectors[j].name))
    {
      SortBySorted(loadedCollectors, LowerName);
      risks, dataCollectors, destinations := loadedRisks, SortBy(loadedCollectors, LowerName), loadedDestinations;
      isLoading := false;
    }

    method OnLoadFailed()
      requires Valid()
      modifies this`isLoading, this`hasError
      ensures Valid() && !isLoading && hasError
    {
      isLoading, hasError := false, true;
    }

    /** Switches entry `index` of `section`; nothing else changes. */
    method Toggle(section: Section, index: nat)
      requires Valid()
      requires index < |if section == Risks then risks else dataCollectors|
      modifies this`risks, this`dataCollectors
      ensures Valid()
      ensures section == Risks ==> risks == FlipAt(old(risks), index) && dataCollectors == old(dataCollectors)
      ensures section == DataCollectors ==>
                dataCollectors == FlipAt(old(dataCollectors), index) && risks == old(risks)
    {
      if section == Risks {
        risks := FlipAt(risks, index);
      } else {
        FlipAtKeepsOrder(dataCollectors, index);
        dataCollectors := FlipAt(dataCollectors, index);
      }
    }

    /** Switches the first destination named `d`; nothing else changes. */
    method ToggleDestination(d: string)
      requires Valid() && HasDestination(destinations, d)
      modifies this`destinations
      ensures Valid()
      ensures var k := DestinationIndex(old(destinations), d);
              k.Some? &&
              |destinations| == |old(destinations)| &&
              destinations[k.value] == old(destinations)[k.value].(enabled := !old(destinations)[k.value].enabled) &&
              forall j :: 0 <= j < |destinations| && j != k.value ==> destinations[j] == old(destinations)[j]
    {
      var k := DestinationIndex(destinations, d);
      var item := destinations[k.value];
      destinations := destinations[k.value := item.(enabled := !item.enabled)];
    }

    /** Typing in the extra e-mail input. */
    method OnAdditionalChange(value: string)
      requires Valid()
      modifies this`newEmail
      ensures Valid() && newEmail == value
    {
      newEmail := value;
    }

    /** Typing in the phone input. */
    method OnPhoneChange(phone: string)
      requires Valid()
      modifies this`newPhone
      ensures Valid() && newPhone == phone
    {
      newPhone := phone;
    }

    /**
     * Appends an unconfirmed contact to destination `d`'s extra contacts and
     * leaves every other destination alone.
     */
    method AddContact(d: string, address: string)
      requires Valid() && HasDestination(destinations, d)
      modifies this`destinations
      ensures Valid()
      ensures var k := DestinationIndex(old(destinations), d);
              k.Some? &&
              |destinations| == |old(destinations)| &&
              destinations[k.value] == old(destinations)[k.value].(additional :=
                old(destinations)[k.value].additional + [Contact(false, address)]) &&
              forall j :: 0 <= j < |destinations| && j != k.value ==> destinations[j] == old(destinations)[j]
    {
      var k := DestinationIndex(destinations, d);
      var item := destinations[k.value];
      destinations := destinations[k.value := item.(additional := item.additional + [Contact(false, address)])];
    }

    /** "Add" next to the e-mail input: the address is appended and the input cleared. */
    method OnAdditionalEmailAdded()
      requires Valid() && HasDestination(destinations, EmailDestination)
      modifies this`destinations, this`newEmail
      ensures Valid() && newEmail == "" && !AddEmailEnabled()
      ensures var k := DestinationIndex(old(destinations), EmailDestination);
              k.Some? &&
              |destinations| == |old(destinations)| &&
              destinations[k.value] == old(destinations)[k.value].(additional :=
                old(destinations)[k.value].additional + [Contact(false, old(newEmail))]) &&
              forall j :: 0 <= j < |destinations| && j != k.value ==> destinations[j] == old(destinations)[j]
    {
      AddContact(EmailDestination, newEmail);
      newEmail := "";
    }

    /** "Add" next to the phone input: the number is appended and the input cleared. */
    method OnAdditionalPhoneAdded()
      requires Valid() && HasDestination(destinations, SmsDestination)
      modifies this`destinations, this`newPhone
      ensures Valid() && newPhone == ""
      ensures var k := DestinationIndex(old(destinations), SmsDestination);
              k.Some? &&
              |destinations| == |old(destinations)| &&
              destinations[k.value] == old(destinations)[k.value].(additional :=
                old(destinations)[k.value].additional + [Contact(false, old(newPhone))]) &&
              forall j :: 0 <= j < |destinations| && j != k.value ==> destinations[j] == old(destinations)[j]
    {
      AddContact(SmsDestination, newPhone);
      newPhone := "";
    }

    /** Removes extra contact `index` of destination `d` as `splice(index, 1)` does. */
    method RemoveContact(d: string, index: int)
      requires Valid() && HasDestination(destinations, d)
      modifies this`destinations
      ensures Valid()
      ensures var k := DestinationIndex(old(destinations), d);
              k.Some? &&
              |destinations| == |old(destinations)| &&
              destinations[k.value] == old(destinations)[k.value].(additional :=
                SpliceOne(old(destinations)[k.value].additional, index)) &&
              forall j :: 0 <= j < |destinations| && j != k.value ==> destinations[j] == old(destinations)[j]
    {
      var k := DestinationIndex(destinations, d);
      var item := destinations[k.value];
      destinations := destinations[k.value := item.(additional := SpliceOne(item.additional, index))];
    }

    /** The close icon next to extra e-mail address `index`. */
    method RemoveEmail(index: int)
      requires Valid() && HasDestination(destinations, EmailDestination)
      modifies this`destinations
      ensures Valid()
      ensures var k := DestinationIndex(old(destinations), EmailDestination);
              k.Some? &&
              |destinations| == |old(destinations)| &&
              destinations[k.value] == old(destinations)[k.value].(additional :=
                SpliceOne(old(destinations)[k.value].additional, index)) &&
              forall j :: 0 <= j < |destinations| && j != k.value ==> destinations[j] == old(destinations)[j]
    {
      RemoveContact(EmailDestination, index);
    }

    /** The close icon next to extra phone number `index`. */
    method RemovePhone(index: int)
      requires Valid() && HasDestination(destinations, SmsDestination)
      modifies this`destinations
      ensures Valid()
      ensures var k := DestinationIndex(old(destinations), SmsDestination);
              k.Some? &&
              |destinations| == |old(destinations)| &&
              destinations[k.value] == old(destinations)[k.value].(additional :=
                SpliceOne(old(destinations)[k.value].additional, index)) &&
              forall j :: 0 <= j < |destinations| && j != k.value ==> destinations[j] == old(destinations)[j]
    {
      RemoveContact(SmsDestination, index);
    }

    /** Clicking accordion title `i`. */
    method HandleAccordionClick(i: nat)
      requires Valid()
      modifies this`activeIndex
      ensures Valid() && activeIndex == AccordionClick(old(activeIndex), i)
    {
      activeIndex := if activeIndex == i then -1 else i;
    }

    /** "Save" pressed: the preferences are sent. */
    method StartSave()
      requires Valid()
      modifies this`isSaving
      ensures Valid() && isSaving
    {
      isSaving := true;
    }

    method OnSaveSucceeded()
      requires Valid()
      modifies this`isSaving
      ensures Valid() && !isSaving
    {
      isSaving := false;
    }

    method OnSaveFailed()
      requires Valid()
      modifies this`isSaving, this`hasError
      ensures Valid() && !isSaving && hasError
    {
      isSaving, hasError := false, true;
    }
  }
}
