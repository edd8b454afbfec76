/** Choosing which receipt in the directory answers a question. */
module Selection {
  import opened Wrappers
  import opened Protocol
  import opened Receipts

  datatype Content = Unreadable | Readable(record: ReceiptRecord)

  /** One directory entry; receipts are the ones with the `json` extension. */
  datatype Entry = Entry(modified: nat, isJson: bool, content: Content)

  datatype SelectionError = UnreadableDirectory | UnreadableReceipt | NoResponse | FingerprintMismatch

  datatype RecordedResponse = RecordedResponse(response: AdapterResponse, modified: nat)

  function Filter(s: seq<Entry>, p: Entry -> bool): seq<Entry> {
    if s == [] then []
    else Filter(s[..|s| - 1], p) + if p(s[|s| - 1]) then [s[|s| - 1]] else []
  }

  predicate NewestFirst(s: seq<Entry>) {
    forall i, j :: 0 <= i < j < |s| ==> s[i].modified >= s[j].modified
  }

  /** Place an entry behind everything at least as new. */
  function Insert(s: seq<Entry>, e: Entry): (r: seq<Entry>)
    ensures multiset(r) == multiset(s) + multiset{e}
  {
    if s == [] || s[|s| - 1].modified >= e.modified then s + [e]
    else
      assert s == s[..|s| - 1] + [s[|s| - 1]];
      Insert(s[..|s| - 1], e) + [s[|s| - 1]]
  }

  /** The stable sort by descending modification time. */
  function Sorted(s: seq<Entry>): (r: seq<Entry>)
    ensures multiset(r) == multiset(s)
  {
    if s == [] then []
    else
      assert s == s[..|s| - 1] + [s[|s| - 1]];
      Insert(Sorted(s[..|s| - 1]), s[|s| - 1])
  }

  predicate AtLeast(s: seq<Entry>, bound: nat) {
    forall i :: 0 <= i < |s| ==> s[i].modified >= bound
  }

  lemma {:induction false} InsertAtLeast(s: seq<Entry>, e: Entry, bound: nat)
    requires AtLeast(s, bound) && e.modified >= bound
    ensures AtLeast(Insert(s, e), bound)
  {
    if s != [] && s[|s| - 1].modified < e.modified {
      InsertAtLeast(s[..|s| - 1], e, bound);
    }
  }

  lemma {:induction false} InsertKeepsOrder(s: seq<Entry>, e: Entry)
    requires NewestFirst(s)
    ensures NewestFirst(Insert(s, e))
  {
    if s != [] && s[|s| - 1].modified < e.modified {
      InsertKeepsOrder(s[..|s| - 1], e);
      InsertAtLeast(s[..|s| - 1], e, s[|s| - 1].modified);
    }
  }

  lemma {:induction false} SortedKeepsOrder(s: seq<Entry>)
    ensures NewestFirst(Sorted(s))
  {
    if s != [] {
      SortedKeepsOrder(s[..|s| - 1]);
      InsertKeepsOrder(Sorted(s[..|s| - 1]), s[|s| - 1]);
    }
  }

  /** The first entry that is asked for, in the order given. */
  function FirstMatch(s: seq<Entry>, p: Entry -> bool): Option<Entry> {
    if s == [] then None
    else if p(s[0]) then Some(s[0])
    else FirstMatch(s[1..], p)
  }

  /** The position of the newest entry asked for; of several equally new ones, the one listed first. */
  function Newest(s: seq<Entry>, p: Entry -> bool): (k: Option<nat>)
    ensures k.Some? ==> k.value < |s|
  {
    if s == [] then None
    else
      var last, k := |s| - 1, Newest(s[..|s| - 1], p);
      if p(s[last]) && (k.None? || s[k.value].modified < s[last].modified) then Some(last) else k
  }

  lemma {:induction false} NewestIsNewest(s: seq<Entry>, p: Entry -> bool)
    ensures Newest(s, p).None? <==> forall i :: 0 <= i < |s| ==> !p(s[i])
    ensures Newest(s, p).Some? ==>
              var k := Newest(s, p).value;
              && p(s[k])
              && forall i :: 0 <= i < |s| && i != k && p(s[i]) ==>
                   s[i].modified < s[k].modified || (s[i].modified == s[k].modified && k < i)
  {
    if s != [] {
      var shorter, last := s[..|s| - 1], |s| - 1;
      NewestIsNewest(shorter, p);
      assert forall i :: 0 <= i < last ==> shorter[i] == s[i];
      if Newest(shorter, p).None? && !p(s[last]) {
        forall i | 0 <= i < |s| ensures !p(s[i]) {
          assert i < last ==> !p(shorter[i]);
        }
      }
      forall i | Newest(s, p).Some? && 0 <= i < |s| && i != Newest(s, p).value && p(s[i])
        ensures var k := Newest(s, p).value;
                s[i].modified < s[k].modified || (s[i].modified == s[k].modified && k < i)
      {
        if i < last {
          assert p(shorter[i]);
        }
      }
    }
  }

  lemma {:induction false} FirstMatchAppend(s: seq<Entry>, t: seq<Entry>, p: Entry -> bool)
    ensures FirstMatch(s + t, p) == if FirstMatch(s, p).Some? then FirstMatch(s, p) else FirstMatch(t, p)
  {
    if s == [] {
      assert s + t == t;
    } else {
      assert (s + t)[1..] == s[1..] + t;
      FirstMatchAppend(s[1..], t, p);
    }
  }

  lemma {:induction false} FirstMatchMember(s: seq<Entry>, p: Entry -> bool)
    ensures FirstMatch(s, p).Some? ==> FirstMatch(s, p).value in s
  {
    if s != [] && !p(s[0]) {
      FirstMatchMember(s[1..], p);
    }
  }

  lemma FirstMatchSnoc(s: seq<Entry>, e: Entry, p: Entry -> bool)
    ensures FirstMatch(s + [e], p) == if FirstMatch(s, p).Some? then FirstMatch(s,
                                                                                p) else if p(e) then Some(e) else None
  {
    FirstMatchAppend(s, [e], p);
    assert [e][1..] == [];
  }

  lemma {:induction false} FirstMatchInsert(s: seq<Entry>, e: Entry, p: Entry -> bool)
    requires NewestFirst(s)
    ensures FirstMatch(Insert(s, e), p)
         == if p(e) && (FirstMatch(s, p).None? || FirstMatch(s, p).value.modified < e.modified) then Some(e)
            else FirstMatch(s, p)
  {
    if s == [] || s[|s| - 1].modified >= e.modified {
      FirstMatchSnoc(s, e, p);
      FirstMatchMember(s, p);
    } else {
      var shorter, last := s[..|s| - 1], s[|s| - 1];
      assert s == shorter + [last];
      FirstMatchInsert(shorter, e, p);
      FirstMatchSnoc(Insert(shorter, e), last, p);
      FirstMatchSnoc(shorter, last, p);
    }
  }

  /** The walk over the sorted directory stops at the newest entry asked for. */
  lemma {:induction false} WalkFindsNewest(s: seq<Entry>, p: Entry -> bool)
    ensures FirstMatch(Sorted(s), p) == NewestEntry(s, p)
  {
    if s != [] {
      var shorter := s[..|s| - 1];
      WalkFindsNewest(shorter, p);
      SortedKeepsOrder(shorter);
      FirstMatchInsert(Sorted(shorter), s[|s| - 1], p);
    }
  }

  /** The newest entry itself. */
  function NewestEntry(s: seq<Entry>, p: Entry -> bool): Option<Entry> {
    if Newest(s, p).Some? then Some(s[Newest(s, p).value]) else None
  }

  lemma NewestSnoc(s: seq<Entry>, e: Entry, p: Entry -> bool)
    ensures NewestEntry(s + [e], p)
         == if p(e) && (NewestEntry(s, p).None? || NewestEntry(s, p).value.modified < e.modified) then Some(e)
            else NewestEntry(s, p)
  {
    assert (s + [e])[..|s + [e]| - 1] == s;
  }

  lemma {:induction false} NewestIgnoresOthers(s: seq<Entry>, p: Entry -> bool)
    ensures NewestEntry(s, p) == NewestEntry(Filter(s, p), p)
  {
    if s != [] {
      var shorter, last := s[..|s| - 1], s[|s| - 1];
      assert s == shorter + [last];
      NewestIgnoresOthers(shorter, p);
      NewestSnoc(shorter, last, p);
      NewestSnoc(Filter(shorter, p), last, p);
      assert Filter(shorter, p) + [] == Filter(shorter, p);
    }
  }

  /** Entries that are not asked for never change the answer, wherever the directory lists them. */
  lemma OthersNeverMatter(s: seq<Entry>, t: seq<Entry>, p: Entry -> bool)
    requires Filter(s, p) == Filter(t, p)
    ensures FirstMatch(Sorted(s), p) == FirstMatch(Sorted(t), p)
  {
    WalkFindsNewest(s, p);
    WalkFindsNewest(t, p);
    NewestIgnoresOthers(s, p);
    NewestIgnoresOthers(t, p);
  }

  /** What the walk for owned receipts stops at: a readable owned match, or a receipt it cannot read. */
  predicate IsOwnedResource(response: AdapterResponse) {
    && response.data.At("owned") == Bool(true)
    && response.data.At("resource_id").String?
    && response.data.At("resource_id").s != ""
  }

  predicate Matches(e: Entry, id: ReceiptIdentity) {
    e.content.Readable? && e.content.record.identity == id
  }

  predicate Answers(e: Entry, id: ReceiptIdentity) {
    Matches(e, id) && e.content.record.response.Some?
  }

  predicate Owns(e: Entry, id: ReceiptIdentity) {
    Answers(e, id) && IsOwnedResource(e.content.record.response.value)
  }

  function StopsAtOwned(id: ReceiptIdentity): Entry -> bool {
    (e: Entry) => e.isJson && (e.content.Unreadable? || Owns(e, id))
  }

  function StopsAtAnswer(id: ReceiptIdentity): Entry -> bool {
    (e: Entry) => e.isJson && (e.content.Unreadable? || Answers(e, id))
  }

  function StopsInWindow(id: ReceiptIdentity, start: nat, end: nat): Entry -> bool {
    (e: Entry) => e.isJson && start <= e.modified <= end && (e.content.Unreadable? || Matches(e, id))
  }

  function Found(stop: Option<Entry>): Result<Option<Entry>, SelectionError> {
    if stop.Some? && stop.value.content.Unreadable? then Failure(UnreadableReceipt) else Success(stop)
  }

  function IsReceipt(): Entry -> bool {
    (e: Entry) => e.isJson
  }

  /** One directory entry as it is found; its write time may not be had. */
  datatype Listed = Listed(modified: Option<nat>, isJson: bool, content: Content)

  /** The receipts of a directory, with their write times. */
  function Stamped(listing: seq<Listed>): seq<Entry> {
    if listing == [] then []
    else
      var last := listing[|listing| - 1];
      Stamped(listing[..|listing| - 1])
      + if last.isJson && last.modified.Some? then [Entry(last.modified.value, true, last.content)] else []
  }

  predicate UntimedAt(listing: seq<Listed>, i: nat)
    requires i < |listing|
  {
    listing[i].isJson && listing[i].modified.None?
  }

  /** The directory can be listed, and every receipt in it has its write time. */
  predicate Listable(listing: Option<seq<Listed>>) {
    listing.Some? && forall i :: 0 <= i < |listing.value| ==> !UntimedAt(listing.value, i)
  }

  /** Collect the receipts of one directory and sort them newest first; one that has no time fails the whole listing. */
  method ReceiptPathsNewestFirst(listing: Option<seq<Listed>>) returns (r: Result<seq<Entry>, SelectionError>)
    ensures !Listable(listing) ==> r == Failure(UnreadableDirectory)
    ensures Listable(listing) ==>
              && r == Success(Sorted(Stamped(listing.value)))
              && NewestFirst(r.value) && forall e :: e in r.value <==> e in Stamped(listing.value)
  {
    if listing.None? {
      return Failure(UnreadableDirectory);
    }
    var paths := [];
    for i := 0 to |listing.value|
      invariant paths == Stamped(listing.value[..i])
      invariant forall k :: 0 <= k < i ==> !UntimedAt(listing.value, k)
    {
      var entry := listing.value[i];
      assert listing.value[..i + 1] == listing.value[..i] + [entry];
      assert Stamped(listing.value[..i + 1]) == Stamped(listing.value[..i])
             + if entry.isJson && entry.modified.Some? then [Entry(entry.modified.value, true, entry.content)] else [];
      if entry.isJson {
        if entry.modified.None? {
          assert UntimedAt(listing.value, i);
          return Failure(UnreadableDirectory);
        }
        paths := paths + [Entry(entry.modified.value, true, entry.content)];
      }
    }
    assert listing.value[..|listing.value|] == listing.value;
    SortedKeepsOrder(paths);
    SortedKeepsMembers(paths);
    r := Success(Sorted(paths));
  }

  lemma SortedKeepsMembers(s: seq<Entry>)
    ensures forall e :: e in Sorted(s) <==> e in s
  {
    assert forall e :: e in Sorted(s) <==> e in multiset(Sorted(s));
    assert forall e :: e in s <==> e in multiset(s);
  }

  lemma {:induction false} StampedAreJson(listing: seq<Listed>)
    ensures forall e :: e in Stamped(listing) ==> e.isJson
  {
    if listing != [] {
      StampedAreJson(listing[..|listing| - 1]);
    }
  }

  /** What a question about a directory comes to. */
  function Asked(listing: Option<seq<Listed>>, p: Entry -> bool): Result<Option<Entry>, SelectionError> {
    if !Listable(listing) then Failure(UnreadableDirectory) else Found(NewestEntry(Stamped(listing.value), p))
  }

  /** A directory all of whose entries have their times. */
  function AsListed(listing: seq<Entry>): seq<Listed> {
    seq(|listing|, i requires 0 <= i < |listing| =>
      Listed(Some(listing[i].modified), listing[i].isJson, listing[i].content))
  }

  lemma {:induction false} StampedAsListed(listing: seq<Entry>)
    ensures Stamped(AsListed(listing)) == Filter(listing, IsReceipt())
  {
    if listing != [] {
      var shorter := listing[..|listing| - 1];
      StampedAsListed(shorter);
      assert AsListed(listing)[..|listing| - 1] == AsListed(shorter);
    }
  }

  /** With all times there, the question is about the entries as they stand. */
  lemma AskedOfEntries(listing: seq<Entry>, p: Entry -> bool)
    requires forall e :: p(e) ==> e.isJson
    ensures Listable(Some(AsListed(listing)))
    ensures NewestEntry(Stamped(AsListed(listing)), p) == NewestEntry(listing, p)
  {
    StampedAsListed(listing);
    NewestOfReceipts(listing, p);
    forall i | 0 <= i < |listing| ensures !UntimedAt(AsListed(listing), i) {
    }
  }

  lemma NewestOfReceipts(listing: seq<Entry>, p: Entry -> bool)
    requires forall e :: p(e) ==> e.isJson
    ensures NewestEntry(Filter(listing, IsReceipt()), p) == NewestEntry(listing, p)
  {
    ReceiptsSuffice(listing, p);
    NewestIgnoresOthers(Filter(listing, IsReceipt()), p);
    NewestIgnoresOthers(listing, p);
  }

  /** The walk sees only receipts, and every stop is one. */
  lemma {:induction false} ReceiptsSuffice(listing: seq<Entry>, p: Entry -> bool)
    requires forall e :: p(e) ==> e.isJson
    ensures Filter(Filter(listing, IsReceipt()), p) == Filter(listing, p)
  {
    if listing != [] {
      var shorter, last := listing[..|listing| - 1], listing[|listing| - 1];
      ReceiptsSuffice(shorter, p);
      if last.isJson {
        var kept := Filter(shorter, IsReceipt());
        assert Filter(listing, IsReceipt()) == kept + [last];
        assert (kept + [last])[..|kept + [last]| - 1] == kept;
      } else {
        assert Filter(shorter, IsReceipt()) + [] == Filter(shorter, IsReceipt());
        assert Filter(shorter, p) + [] == Filter(shorter, p);
      }
    }
  }

  lemma WalkOfListing(listing: seq<Entry>, p: Entry -> bool)
    requires forall e :: p(e) ==> e.isJson
    ensures FirstMatch(Sorted(Filter(listing, IsReceipt())), p) == NewestEntry(listing, p)
  {
    ReceiptsSuffice(listing, p);
    WalkFindsNewest(Filter(listing, IsReceipt()), p);
    NewestIgnoresOthers(Filter(listing, IsReceipt()), p);
    NewestIgnoresOthers(listing, p);
  }

  method LatestOwnedMatchingRecord(listing: Option<seq<Listed>>, id: ReceiptIdentity)
    returns (r: Result<Option<Entry>, SelectionError>)
    ensures r == Asked(listing, StopsAtOwned(id))
  {
    var found := ReceiptPathsNewestFirst(listing);
    if found.Failure? {
      return Failure(found.error);
    }
    var paths := found.value;
    StampedAreJson(listing.value);
    WalkFindsNewest(Stamped(listing.value), StopsAtOwned(id));
    for i := 0 to |paths|
      invariant FirstMatch(paths, StopsAtOwned(id)) == FirstMatch(paths[i..], StopsAtOwned(id))
    {
      assert paths[i] in paths;
      assert paths[i..][1..] == paths[i + 1..];
      if paths[i].content.Unreadable? {
        return Failure(UnreadableReceipt);
      }
      var record := paths[i].content.record;
      if record.identity != id || record.response.None? || !IsOwnedResource(record.response.value) {
        continue;
      }
      return Success(Some(paths[i]));
    }
    return Success(None);
  }

  method LatestMatchingRecord(listing: Option<seq<Listed>>, id: ReceiptIdentity)
    returns (r: Result<Option<Entry>, SelectionError>)
    ensures r == Asked(listing, StopsAtAnswer(id))
  {
    var found := ReceiptPathsNewestFirst(listing);
    if found.Failure? {
      return Failure(found.error);
    }
    var paths := found.value;
    StampedAreJson(listing.value);
    WalkFindsNewest(Stamped(listing.value), StopsAtAnswer(id));
    for i := 0 to |paths|
      invariant FirstMatch(paths, StopsAtAnswer(id)) == FirstMatch(paths[i..], StopsAtAnswer(id))
    {
      assert paths[i] in paths;
      assert paths[i..][1..] == paths[i + 1..];
      if paths[i].content.Unreadable? {
        return Failure(UnreadableReceipt);
      }
      var record := paths[i].content.record;
      assert StopsAtAnswer(id)(paths[i]) <==> record.identity == id && record.response.Some?;
      if record.identity != id || record.response.None? {
        continue;
      }
      return Success(Some(paths[i]));
    }
    return Success(None);
  }

  function Recorded(e: Entry): Result<RecordedResponse, SelectionError>
    requires e.content.Readable?
  {
    if e.content.record.response.None? then Failure(NoResponse)
    else Success(RecordedResponse(e.content.record.response.value, e.modified))
  }

  /** What the window question answers: the newest match in the window, if it has an outcome. */
  function Windowed(stop: Option<Entry>): Result<Option<RecordedResponse>, SelectionError> {
    if stop.None? then Success(None)
    else if stop.value.content.Unreadable? then Failure(UnreadableReceipt)
    else
      match Recorded(stop.value)
      case Success(recorded) => Success(Some(recorded))
      case Failure(error) => Failure(error)
  }

  method LatestRecordedResponseBetween(listing: Option<seq<Listed>>, id: ReceiptIdentity, start: nat, end: nat)
    returns (r: Result<Option<RecordedResponse>, SelectionError>)
    ensures r == if !Listable(listing) then Failure(UnreadableDirectory)
                 else Windowed(NewestEntry(Stamped(listing.value), StopsInWindow(id, start, end)))
  {
    var found := ReceiptPathsNewestFirst(listing);
    if found.Failure? {
      return Failure(found.error);
    }
    var paths := found.value;
    ghost var stops := StopsInWindow(id, start, end);
    StampedAreJson(listing.value);
    WalkFindsNewest(Stamped(listing.value), stops);
    for i := 0 to |paths|
      invariant FirstMatch(paths, stops) == FirstMatch(paths[i..], stops)
    {
      assert paths[i] in paths;
      assert paths[i..][1..] == paths[i + 1..];
      assert stops(paths[i]) <==> start <= paths[i].modified <= end
                                  && (paths[i].content.Unreadable? || Matches(paths[i], id));
      if paths[i].modified < start || paths[i].modified > end {
        continue;
      }
      if paths[i].content.Unreadable? {
        return Failure(UnreadableReceipt);
      }
      if paths[i].content.record.identity != id {
        continue;
      }
      r := Windowed(Some(paths[i]));
      return;
    }
    return Success(None);
  }

  function EnsureFingerprint(found: Result<Option<Entry>, SelectionError>, fingerprint: string)
    : Result<Option<RecordedResponse>, SelectionError>
    requires found.Success? && found.value.Some? ==> found.value.value.content.Readable?
  {
    match found
    case Failure(error) => Failure(error)
    case Success(None) => Success(None)
    case Success(Some(e)) =>
      if e.content.record.fingerprint != fingerprint then Failure(FingerprintMismatch)
      else
        match Recorded(e)
        case Success(recorded) => Success(Some(recorded))
        case Failure(error) => Failure(error)
  }

  /** Newer than, or as new as and listed before. */
  predicate Precedes(listing: seq<Entry>, k: nat, i: nat)
    requires k < |listing| && i < |listing|
  {
    listing[i].modified < listing[k].modified || (listing[i].modified == listing[k].modified && k < i)
  }

  predicate OwnedAt(listing: seq<Entry>, id: ReceiptIdentity, i: nat)
    requires i < |listing|
  {
    listing[i].isJson && Owns(listing[i], id)
  }

  predicate UnreadableAt(listing: seq<Entry>, i: nat)
    requires i < |listing|
  {
    listing[i].isJson && listing[i].content.Unreadable?
  }

  /** The owned receipt chosen is the newest owned one, unless a receipt at least as new cannot be read. */
  lemma OwnedSelection(listing: seq<Entry>, id: ReceiptIdentity)
    returns (r: Result<Option<Entry>, SelectionError>)
    ensures r == Found(NewestEntry(listing, StopsAtOwned(id)))
    ensures r == Success(None) <==>
            forall i :: 0 <= i < |listing| ==> !OwnedAt(listing, id, i) && !UnreadableAt(listing, i)
    ensures r.Success? && r.value.Some? ==>
              exists k :: 0 <= k < |listing| && r.value.value == listing[k] && OwnedAt(listing, id, k)
                          && forall i :: 0 <= i < |listing| && i != k
                                         && (OwnedAt(listing, id, i) || UnreadableAt(listing, i)) ==>
                                           Precedes(listing, k, i)
    ensures r.Failure? ==>
              exists k :: 0 <= k < |listing| && UnreadableAt(listing, k)
                          && forall i :: 0 <= i < |listing| && OwnedAt(listing, id, i) ==> Precedes(listing, k, i)
  {
    var p := StopsAtOwned(id);
    r := Found(NewestEntry(listing, p));
    NewestIsNewest(listing, p);
    forall i | 0 <= i < |listing|
      ensures p(listing[i]) <==> OwnedAt(listing, id, i) || UnreadableAt(listing, i)
    {
    }
    if Newest(listing, p).Some? {
      var k := Newest(listing, p).value;
      assert OwnedAt(listing, id, k) || UnreadableAt(listing, k);
    }
  }

  predicate AnsweredAt(listing: seq<Entry>, id: ReceiptIdentity, i: nat)
    requires i < |listing|
  {
    listing[i].isJson && Answers(listing[i], id)
  }

  /** The answered receipt chosen is the newest answered one, unless a receipt at least as new cannot be read. */
  lemma AnsweredSelection(listing: seq<Entry>, id: ReceiptIdentity)
    returns (r: Result<Option<Entry>, SelectionError>)
    ensures r == Found(NewestEntry(listing, StopsAtAnswer(id)))
    ensures r == Success(None) <==>
            forall i :: 0 <= i < |listing| ==> !AnsweredAt(listing, id, i) && !UnreadableAt(listing, i)
    ensures r.Success? && r.value.Some? ==>
              exists k :: 0 <= k < |listing| && r.value.value == listing[k] && AnsweredAt(listing, id, k)
                          && forall i :: 0 <= i < |listing| && i != k
                                         && (AnsweredAt(listing, id, i) || UnreadableAt(listing, i)) ==>
                                           Precedes(listing, k, i)
    ensures r.Failure? ==>
              exists k :: 0 <= k < |listing| && UnreadableAt(listing, k)
                          && forall i :: 0 <= i < |listing| && AnsweredAt(listing, id, i) ==> Precedes(listing, k, i)
  {
    var p := StopsAtAnswer(id);
    r := Found(NewestEntry(listing, p));
    NewestIsNewest(listing, p);
    forall i | 0 <= i < |listing|
      ensures p(listing[i]) <==> AnsweredAt(listing, id, i) || UnreadableAt(listing, i)
    {
    }
    if Newest(listing, p).Some? {
      var k := Newest(listing, p).value;
      assert AnsweredAt(listing, id, k) || UnreadableAt(listing, k);
    }
  }

  /** Only receipts need their write times: one without fails the directory, anything else never matters. */
  lemma OnlyReceiptsNeedTimes(listing: seq<Listed>, e: Listed)
    ensures e.isJson && e.modified.None? ==> !Listable(Some(listing + [e]))
    ensures !(e.isJson && e.modified.None?) ==> (Listable(Some(listing + [e])) <==> Listable(Some(listing)))
    ensures !e.isJson ==> Stamped(listing + [e]) == Stamped(listing)
    ensures e.isJson && e.modified.Some? ==>
              Stamped(listing + [e]) == Stamped(listing) + [Entry(e.modified.value, true, e.content)]
  {
    var longer := listing + [e];
    assert longer[..|listing|] == listing;
    forall i | 0 <= i < |listing| ensures UntimedAt(longer, i) <==> UntimedAt(listing, i) {
    }
    assert UntimedAt(longer, |listing|) <==> e.isJson && e.modified.None?;
    if Listable(Some(longer)) {
      forall i | 0 <= i < |listing| ensures !UntimedAt(listing, i) {
        assert !UntimedAt(longer, i);
      }
    }
  }

  /** A receipt is gone by under the current fingerprint only, and only once it was answered. */
  lemma CurrentReceiptIff(e: Entry, fingerprint: string, recorded: RecordedResponse)
    requires e.content.Readable?
    ensures EnsureFingerprint(Success(Some(e)), fingerprint) == Success(Some(recorded)) <==>
            && e.content.record.fingerprint == fingerprint
            && e.content.record.response == Some(recorded.response) && e.modified == recorded.modified
  {
  }

  /** Receipts without an outcome and receipts that claim nothing never change which create is torn down. */
  lemma UnownedReceiptsNeverMatter(listing: seq<Entry>, more: seq<Entry>, id: ReceiptIdentity)
    requires Filter(listing, StopsAtOwned(id)) == Filter(more, StopsAtOwned(id))
    ensures Found(FirstMatch(Sorted(Filter(listing, IsReceipt())), StopsAtOwned(id)))
         == Found(FirstMatch(Sorted(Filter(more, IsReceipt())), StopsAtOwned(id)))
  {
    WalkOfListing(listing, StopsAtOwned(id));
    WalkOfListing(more, StopsAtOwned(id));
    NewestIgnoresOthers(listing, StopsAtOwned(id));
    NewestIgnoresOthers(more, StopsAtOwned(id));
  }
}
