/** Target resolution of the BatchPush handler (web_app.py lines 411-456): the
    comma-separated target spec becomes two maps, `group_sends` and
    `user_sends`, from bot id to the recipients on that bot. */
module PushTargets {
  import opened Wrappers
  import opened PyStr
  import opened PyValues
  import opened Seqs

  /** A stored user or group row as the push handler reads it: the bot it
      belongs to and the user or group id. */
  datatype Record = Record(botId: string, id: string)

  /** A `Dict[str, List[str]]` as the handler builds it: the bots in key
      insertion order and, for each, the recipient list. */
  datatype Targets = Targets(bots: seq<string>, lists: map<string, seq<string>>)

  const NoTargets: Targets := Targets([], map[])

  /** The shape every map the handler builds has: each bot once, every bot
      with a non-empty recipient list, no recipient twice on a bot. */
  ghost predicate Valid(t: Targets)
  {
    && Distinct(t.bots)
    && (forall b :: b in t.lists <==> b in t.bots)
    && (forall b :: b in t.lists ==> t.lists[b] != [] && Distinct(t.lists[b]))
  }

  /** `if bot not in m: m[bot] = [id] elif id not in m[bot]: m[bot].append(id)` */
  function Insert(t: Targets, bot: string, id: string): (r: Targets)
    ensures bot in t.lists && id in t.lists[bot] ==> r == t
  {
    if bot !in t.lists then Targets(t.bots + [bot], t.lists[bot := [id]])
    else if id in t.lists[bot] then t
    else Targets(t.bots, t.lists[bot := t.lists[bot] + [id]])
  }

  /** Inserting the records one after another, in order. */
  function InsertAll(t: Targets, recs: seq<Record>): Targets
  {
    if recs == [] then t
    else
      var last := recs[|recs| - 1];
      Insert(InsertAll(t, recs[..|recs| - 1]), last.botId, last.id)
  }

  /** The bot ids of the records, in order. */
  function BotsOf(recs: seq<Record>): (r: seq<string>)
    ensures |r| == |recs| && forall k :: 0 <= k < |recs| ==> r[k] == recs[k].botId
  {
    if recs == [] then [] else BotsOf(recs[..|recs| - 1]) + [recs[|recs| - 1].botId]
  }

  /** The ids of the records that belong to `bot`, in order. */
  function IdsFor(recs: seq<Record>, bot: string): seq<string>
  {
    if recs == [] then []
    else
      var last := recs[|recs| - 1];
      IdsFor(recs[..|recs| - 1], bot) + (if last.botId == bot then [last.id] else [])
  }

  lemma {:induction false} IdsForEmpty(recs: seq<Record>, bot: string)
    requires bot !in BotsOf(recs)
    ensures IdsFor(recs, bot) == []
  {
    if recs != [] {
      assert BotsOf(recs[..|recs| - 1]) == BotsOf(recs)[..|recs| - 1];
      IdsForEmpty(recs[..|recs| - 1], bot);
    }
  }

  /** The bots of the map built from the records alone are the records'
      bots with repeats dropped. */
  lemma {:induction false} InsertAllBots(recs: seq<Record>)
    ensures var t := InsertAll(NoTargets, recs);
      && t.bots == Dedup(BotsOf(recs))
      && (forall b :: b in t.lists <==> b in BotsOf(recs))
  {
    if recs != [] {
      var p, last := recs[..|recs| - 1], recs[|recs| - 1];
      InsertAllBots(p);
      assert BotsOf(recs) == BotsOf(p) + [last.botId];
      DedupSnoc(BotsOf(p), last.botId);
      DedupSpec(BotsOf(p));
    }
  }

  /** The map built from the records alone is, bot by bot, the records'
      ids with repeats dropped, and its bots are the records' bots with
      repeats dropped: so (by DedupSpec) no recipient appears twice on a bot
      and every list keeps the order in which its ids were first seen. */
  lemma InsertAllIsDedup(recs: seq<Record>)
    ensures var t := InsertAll(NoTargets, recs);
      && t.bots == Dedup(BotsOf(recs))
      && (forall b :: b in t.lists <==> b in BotsOf(recs))
      && (forall b :: b in t.lists ==> t.lists[b] == Dedup(IdsFor(recs, b)))
  {
    InsertAllBots(recs);
    InsertAllLists(recs);
  }

  lemma {:induction false} InsertAllLists(recs: seq<Record>)
    ensures var t := InsertAll(NoTargets, recs);
      forall b :: b in t.lists ==> t.lists[b] == Dedup(IdsFor(recs, b))
  {
    if recs != [] {
      var p := recs[..|recs| - 1];
      InsertAllLists(p);
      InsertAllBots(p);
      forall b | b in InsertAll(NoTargets, recs).lists
        ensures InsertAll(NoTargets, recs).lists[b] == Dedup(IdsFor(recs, b))
      {
        assert recs == p + [recs[|recs| - 1]];
        InsertListStep(p, recs[|recs| - 1], b);
      }
    }
  }

  /** One record more: the list of `b` grows as its Dedup does. */
  lemma InsertListStep(p: seq<Record>, last: Record, b: string)
    requires forall x :: x in InsertAll(NoTargets, p).lists <==> x in BotsOf(p)
    requires forall x :: x in InsertAll(NoTargets, p).lists ==>
      InsertAll(NoTargets, p).lists[x] == Dedup(IdsFor(p, x))
    requires b in InsertAll(NoTargets, p + [last]).lists
    ensures InsertAll(NoTargets, p + [last]).lists[b] == Dedup(IdsFor(p + [last], b))
  {
    var recs := p + [last];
    assert recs[..|recs| - 1] == p;
    var t := InsertAll(NoTargets, p);
    assert InsertAll(NoTargets, recs) == Insert(t, last.botId, last.id);
    assert IdsFor(recs, b) == IdsFor(p, b) + (if last.botId == b then [last.id] else []);
    if b == last.botId {
      DedupSnoc(IdsFor(p, b), last.id);
      if b !in t.lists {
        IdsForEmpty(p, b);
        assert IdsFor(recs, b) == [last.id];
      } else {
        DedupSpec(IdsFor(p, b));
      }
    } else {
      assert IdsFor(recs, b) == IdsFor(p, b);
    }
  }

  /** Every map built by the handler from nothing is Valid. */
  lemma InsertAllValid(recs: seq<Record>)
    ensures Valid(InsertAll(NoTargets, recs))
  {
    InsertAllIsDedup(recs);
    var t := InsertAll(NoTargets, recs);
    DedupSpec(BotsOf(recs));
    forall b | b in t.lists
      ensures t.lists[b] != [] && Distinct(t.lists[b])
    {
      DedupSpec(IdsFor(recs, b));
      var k :| 0 <= k < |recs| && recs[k].botId == b;
      IdsForHas(recs, k);
    }
  }

  lemma {:induction false} IdsForHas(recs: seq<Record>, k: nat)
    requires k < |recs|
    ensures recs[k].id in IdsFor(recs, recs[k].botId)
  {
    if k < |recs| - 1 {
      IdsForHas(recs[..|recs| - 1], k);
    }
  }

  /** IdsFor collects exactly the ids recorded for the bot. */
  lemma {:induction false} IdsForMember(recs: seq<Record>, b: string, u: string)
    ensures u in IdsFor(recs, b) <==> Record(b, u) in recs
  {
    if recs != [] {
      var p, last := recs[..|recs| - 1], recs[|recs| - 1];
      IdsForMember(p, b, u);
      assert recs == p + [last];
    }
  }

  /** The recipients a map holds for `bot` (none when the bot is absent). */
  function Recipients(t: Targets, bot: string): seq<string>
  {
    if bot in t.lists then t.lists[bot] else []
  }

  /** Built from records alone, a map holds `u` for `b` exactly when the
      record (b, u) was supplied. */
  lemma InsertAllMembers(recs: seq<Record>)
    ensures forall b, u :: u in Recipients(InsertAll(NoTargets, recs), b) <==> Record(b, u) in recs
  {
    InsertAllIsDedup(recs);
    var t := InsertAll(NoTargets, recs);
    forall b, u
      ensures u in Recipients(t, b) <==> Record(b, u) in recs
    {
      IdsForMember(recs, b, u);
      if b in t.lists {
        DedupSpec(IdsFor(recs, b));
      }
    }
  }

  lemma {:induction false} InsertAllAppend(t: Targets, a: seq<Record>, b: seq<Record>)
    ensures InsertAll(InsertAll(t, a), b) == InsertAll(t, a + b)
  {
    if b == [] {
      assert a + b == a;
    } else {
      assert (a + b)[..|a + b| - 1] == a + b[..|b| - 1];
      assert (a + b)[|a + b| - 1] == b[|b| - 1];
      InsertAllAppend(t, a, b[..|b| - 1]);
    }
  }

  // ---------------------------------------------------------------------
  // One explicit target entry

  /** What the loop over the target list does with one entry. */
  datatype Entry =
    | Skip                               // no '|': ignored
    | GroupEntry(id: string, bot: string)  // 'g:ID|BOT'
    | UserEntry(id: string, bot: string)   // 'X:ID|BOT'
    | Malformed                          // '|' but no ':' before it: IndexError

  /** web_app.py lines 439-456: `target, bot_id = entry.split('|')[:2]`. */
  function Classify(entry: string): Entry
  {
    if '|' !in entry then Skip
    else
      var parts := Split(entry, '|');
      ClassifyTarget(parts[0], parts[1])
  }

  /** A 'g:' target names a group; any other names a user; the id is the
      second ':'-field, which a target without ':' lacks (IndexError). */
  function ClassifyTarget(target: string, bot: string): Entry
  {
    var fields := Split(target, ':');
    if StartsWith(target, "g:") then
      assert target[1] == ':';
      GroupEntry(fields[1], bot)
    else if |fields| < 2 then Malformed
    else UserEntry(fields[1], bot)
  }

  lemma TargetKinds(target: string, bot: string)
    ensures ClassifyTarget(target, bot) != Skip
    ensures ClassifyTarget(target, bot) == Malformed <==> ':' !in target
  {
    if StartsWith(target, "g:") {
      assert target[1] == ':';
    }
  }

  /** Entries without '|' are skipped; with '|' they are malformed exactly
      when the part before the first '|' has no ':'. */
  lemma ClassifyKinds(entry: string)
    ensures Classify(entry) == Skip <==> '|' !in entry
    ensures Classify(entry) == Malformed <==> '|' in entry && ':' !in Split(entry, '|')[0]
  {
    if '|' in entry {
      var parts := Split(entry, '|');
      TargetKinds(parts[0], parts[1]);
    }
  }

  /** Splitting `a c b` on `c`, when neither side holds `c`. */
  lemma SplitPair(a: string, c: char, b: string)
    requires c !in a && c !in b
    ensures Split(a + [c] + b, c) == [a, b]
  {
    assert [a, b][1..] == [b];
    assert Join([a, b], c) == a + [c] + b;
    SplitJoin([a, b], c);
  }

  /** An entry with one '|' is classified by the target before it. */
  lemma ClassifyPiped(target: string, bot: string)
    requires '|' !in target && '|' !in bot
    ensures Classify(target + ['|'] + bot) == ClassifyTarget(target, bot)
  {
    SplitPair(target, '|', bot);
  }

  /** 'g:ID|BOT' adds ID to group_sends[BOT]. */
  lemma ClassifyGroup(id: string, bot: string)
    requires ':' !in id && '|' !in id && '|' !in bot
    ensures Classify("g:" + id + "|" + bot) == GroupEntry(id, bot)
  {
    var target := "g:" + id;
    assert "g:" + id + "|" + bot == target + ['|'] + bot;
    ClassifyPiped(target, bot);
    assert target == "g" + [':'] + id;
    SplitPair("g", ':', id);
  }

  /** 'KIND:ID|BOT' with any other kind adds ID to user_sends[BOT]. */
  lemma ClassifyUser(kind: string, id: string, bot: string)
    requires kind != "g"
    requires ':' !in kind && '|' !in kind && ':' !in id && '|' !in id && '|' !in bot
    ensures Classify(kind + ":" + id + "|" + bot) == UserEntry(id, bot)
  {
    var target := kind + ":" + id;
    assert kind + ":" + id + "|" + bot == target + ['|'] + bot;
    ClassifyPiped(target, bot);
    UserTarget(kind, id, bot);
  }

  lemma UserTarget(kind: string, id: string, bot: string)
    requires kind != "g" && ':' !in kind && ':' !in id
    ensures ClassifyTarget(kind + ":" + id, bot) == UserEntry(id, bot)
  {
    var target := kind + ":" + id;
    assert target == kind + [':'] + id;
    SplitPair(kind, ':', id);
    if |kind| >= 2 {
      assert target[1] == kind[1] != ':';
    } else if |kind| == 1 {
      assert kind == [kind[0]];
      assert target[0] == kind[0] != 'g';
    } else {
      assert target[0] == ':';
    }
  }

  // ---------------------------------------------------------------------
  // The whole resolution

  datatype Plan = Plan(groups: Targets, users: Targets)

  /** Python's `lst.remove(x)`: drops the first occurrence of `x`. */
  function RemoveFirst(s: seq<string>, x: string): (r: seq<string>)
    requires x in s
    ensures |r| == |s| - 1
    ensures r == s[..FirstIndex(s, x)] + s[FirstIndex(s, x) + 1..]
  {
    if s[0] == x then s[1..]
    else
      var k := FirstIndex(s[1..], x);
      assert s[..k + 1] == [s[0]] + s[1..][..k];
      assert s[k + 2..] == s[1..][k + 1..];
      [s[0]] + RemoveFirst(s[1..], x)
  }

  /** The loop over the remaining entries, from maps `g` and `u`; a malformed
      entry raises IndexError and ends the handler. */
  function EntriesLoop(g: Targets, u: Targets, entries: seq<string>): Result<Plan, PyError>
    decreases |entries|
  {
    if entries == [] then Ok(Plan(g, u))
    else match Classify(entries[0])
      case Skip => EntriesLoop(g, u, entries[1..])
      case Malformed => Err(IndexError)
      case GroupEntry(id, bot) => EntriesLoop(Insert(g, bot, id), u, entries[1..])
      case UserEntry(id, bot) => EntriesLoop(g, Insert(u, bot, id), entries[1..])
  }

  /** The group (user) record one entry names, if any. */
  function GroupRec(e: string): seq<Record>
  {
    match Classify(e)
    case GroupEntry(id, bot) => [Record(bot, id)]
    case _ => []
  }

  function UserRec(e: string): seq<Record>
  {
    match Classify(e)
    case UserEntry(id, bot) => [Record(bot, id)]
    case _ => []
  }

  /** The group (user) records named by explicit entries, in order. */
  function GroupRecs(entries: seq<string>): seq<Record>
  {
    FlatMap(GroupRec, entries)
  }

  function UserRecs(entries: seq<string>): seq<Record>
  {
    FlatMap(UserRec, entries)
  }

  predicate WellFormed(entries: seq<string>)
  {
    forall k :: 0 <= k < |entries| ==> Classify(entries[k]) != Malformed
  }

  /** The entry loop fails exactly on a malformed entry, and otherwise adds
      the explicit group and user records to the two maps, in order. */
  lemma {:induction false} EntriesLoopSpec(g: Targets, u: Targets, entries: seq<string>)
    ensures EntriesLoop(g, u, entries).Err? <==> !WellFormed(entries)
    ensures EntriesLoop(g, u, entries).Err? ==> EntriesLoop(g, u, entries).error == IndexError
    ensures WellFormed(entries) ==>
      EntriesLoop(g, u, entries) == Ok(Plan(InsertAll(g, GroupRecs(entries)), InsertAll(u, UserRecs(entries))))
    decreases |entries|
  {
    if entries != [] {
      var e, rest := entries[0], entries[1..];
      assert entries == [e] + rest;
      WellFormedCons(e, rest);
      match Classify(e) {
        case Skip =>
          EntriesLoopSpec(g, u, rest);
          RecsCons(e, rest);
          assert GroupRecs(entries) == GroupRecs(rest);
          assert UserRecs(entries) == UserRecs(rest);
        case Malformed =>
        case GroupEntry(id, bot) =>
          EntriesLoopSpec(Insert(g, bot, id), u, rest);
          RecsCons(e, rest);
          InsertAllAppend(g, [Record(bot, id)], GroupRecs(rest));
          assert GroupRecs(entries) == [Record(bot, id)] + GroupRecs(rest);
          assert UserRecs(entries) == UserRecs(rest);
        case UserEntry(id, bot) =>
          EntriesLoopSpec(g, Insert(u, bot, id), rest);
          RecsCons(e, rest);
          InsertAllAppend(u, [Record(bot, id)], UserRecs(rest));
          assert GroupRecs(entries) == GroupRecs(rest);
          assert UserRecs(entries) == [Record(bot, id)] + UserRecs(rest);
      }
    }
  }

  /** GroupRecs and UserRecs of an entry followed by more entries. */
  lemma RecsCons(e: string, rest: seq<string>)
    ensures GroupRecs([e] + rest) == GroupRec(e) + GroupRecs(rest)
    ensures UserRecs([e] + rest) == UserRec(e) + UserRecs(rest)
  {
    FlatMapCons(GroupRec, e, rest);
    FlatMapCons(UserRec, e, rest);
  }

  /** A wildcard has no '|', so the copies `remove` leaves behind are skipped:
      removing it does not change the explicit records. */
  lemma {:induction false} RemoveWildcardKeepsRecs(s: seq<string>, w: string)
    requires w in s && '|' !in w
    ensures GroupRecs(RemoveFirst(s, w)) == GroupRecs(s)
    ensures UserRecs(RemoveFirst(s, w)) == UserRecs(s)
    ensures WellFormed(RemoveFirst(s, w)) <==> WellFormed(s)
  {
    assert s == [s[0]] + s[1..];
    RecsCons(s[0], s[1..]);
    if s[0] != w {
      RemoveWildcardKeepsRecs(s[1..], w);
      RecsCons(s[0], RemoveFirst(s[1..], w));
      WellFormedCons(s[0], s[1..]);
      WellFormedCons(s[0], RemoveFirst(s[1..], w));
    } else {
      WellFormedCons(s[0], s[1..]);
    }
  }

  lemma WellFormedCons(e: string, rest: seq<string>)
    ensures WellFormed([e] + rest) <==> Classify(e) != Malformed && WellFormed(rest)
  {
    var s := [e] + rest;
    if Classify(e) != Malformed && WellFormed(rest) {
      forall k | 0 <= k < |s| ensures Classify(s[k]) != Malformed {
        if k > 0 { assert s[k] == rest[k - 1]; }
      }
    }
    if WellFormed(s) {
      assert Classify(s[0]) != Malformed;
      forall k | 0 <= k < |rest| ensures Classify(rest[k]) != Malformed {
        assert rest[k] == s[k + 1];
        assert Classify(s[k + 1]) != Malformed;
      }
    }
  }

  /** web_app.py lines 411-456: split the spec, expand ALLUSER then ALLGROUP
      (each removed once from the list), then walk the remaining entries. */
  function Resolve(pushTag: string, allUsers: seq<Record>, allGroups: seq<Record>): Result<Plan, PyError>
  {
    var t0 := Split(pushTag, ',');
    var u := if "ALLUSER" in t0 then InsertAll(NoTargets, allUsers) else NoTargets;
    var t1 := if "ALLUSER" in t0 then RemoveFirst(t0, "ALLUSER") else t0;
    var g := if "ALLGROUP" in t1 then InsertAll(NoTargets, allGroups) else NoTargets;
    var t2 := if "ALLGROUP" in t1 then RemoveFirst(t1, "ALLGROUP") else t1;
    EntriesLoop(g, u, t2)
  }

  /** The records that feed the user map: every stored user when ALLUSER is
      requested, then the explicit user entries. */
  function UserSource(pushTag: string, allUsers: seq<Record>): seq<Record>
  {
    var t := Split(pushTag, ',');
    (if "ALLUSER" in t then allUsers else []) + UserRecs(t)
  }

  function GroupSource(pushTag: string, allGroups: seq<Record>): seq<Record>
  {
    var t := Split(pushTag, ',');
    (if "ALLGROUP" in t then allGroups else []) + GroupRecs(t)
  }

  /** Resolution fails (IndexError) exactly when an entry of the spec is
      malformed. Otherwise each map holds, bot by bot, the ids of its source
      records with repeats dropped in first-seen order, the wildcard records
      first and the explicit entries after. */
  lemma ResolveSpec(pushTag: string, allUsers: seq<Record>, allGroups: seq<Record>)
    ensures var r := Resolve(pushTag, allUsers, allGroups);
      && (r.Err? <==> !WellFormed(Split(pushTag, ',')))
      && (r.Err? ==> r.error == IndexError)
      && (r.Ok? ==>
            && r.value.users == InsertAll(NoTargets, UserSource(pushTag, allUsers))
            && r.value.groups == InsertAll(NoTargets, GroupSource(pushTag, allGroups)))
  {
    var t0 := Split(pushTag, ',');
    var t1 := if "ALLUSER" in t0 then RemoveFirst(t0, "ALLUSER") else t0;
    var t2 := if "ALLGROUP" in t1 then RemoveFirst(t1, "ALLGROUP") else t1;
    WildcardsRemoved(t0);
    var ua := if "ALLUSER" in t0 then allUsers else [];
    var ga := if "ALLGROUP" in t0 then allGroups else [];
    var u := InsertAll(NoTargets, ua);
    var g := InsertAll(NoTargets, ga);
    assert Resolve(pushTag, allUsers, allGroups) == EntriesLoop(g, u, t2);
    EntriesLoopSpec(g, u, t2);
    InsertAllAppend(NoTargets, ua, UserRecs(t0));
    InsertAllAppend(NoTargets, ga, GroupRecs(t0));
  }

  /** Taking out ALLUSER and then ALLGROUP keeps the explicit records and
      whether the entries are well formed; ALLGROUP survives the first
      removal. */
  lemma WildcardsRemoved(t0: seq<string>)
    ensures var t1 := if "ALLUSER" in t0 then RemoveFirst(t0, "ALLUSER") else t0;
      var t2 := if "ALLGROUP" in t1 then RemoveFirst(t1, "ALLGROUP") else t1;
      && ("ALLGROUP" in t1 <==> "ALLGROUP" in t0)
      && UserRecs(t2) == UserRecs(t0) && GroupRecs(t2) == GroupRecs(t0)
      && (WellFormed(t2) <==> WellFormed(t0))
  {
    var t1 := if "ALLUSER" in t0 then RemoveFirst(t0, "ALLUSER") else t0;
    if "ALLUSER" in t0 {
      RemoveWildcardKeepsRecs(t0, "ALLUSER");
      RemoveFirstOther(t0, "ALLUSER", "ALLGROUP");
    }
    if "ALLGROUP" in t1 {
      RemoveWildcardKeepsRecs(t1, "ALLGROUP");
    }
  }

  lemma {:induction false} RemoveFirstOther(s: seq<string>, x: string, y: string)
    requires x in s && x != y
    ensures y in RemoveFirst(s, x) <==> y in s
  {
    if s[0] != x {
      RemoveFirstOther(s[1..], x, y);
      assert y in s <==> y == s[0] || y in s[1..];
    }
  }

  /** Both maps of a resolved plan are Valid: no bot twice, no recipient
      twice on a bot, and (by InsertAllIsDedup) first-seen order. */
  lemma ResolvedValid(pushTag: string, allUsers: seq<Record>, allGroups: seq<Record>)
    requires Resolve(pushTag, allUsers, allGroups).Ok?
    ensures Valid(Resolve(pushTag, allUsers, allGroups).value.users)
    ensures Valid(Resolve(pushTag, allUsers, allGroups).value.groups)
  {
    ResolveSpec(pushTag, allUsers, allGroups);
    InsertAllValid(UserSource(pushTag, allUsers));
    InsertAllValid(GroupSource(pushTag, allGroups));
  }

  // ---------------------------------------------------------------------
  // The handler's dicts, updated in place

  /** `user_sends` or `group_sends`. */
  class SendMap {
    var bots: seq<string>
    var lists: map<string, seq<string>>

    function Value(): Targets
      reads this
    {
      Targets(bots, lists)
    }

    constructor ()
      ensures Value() == NoTargets
    {
      bots := [];
      lists := map[];
    }

    /** One `if bot not in m ... append` step. */
    method Add(bot: string, id: string)
      modifies this
      ensures Value() == Insert(old(Value()), bot, id)
    {
      if bot !in lists {
        bots := bots + [bot];
        lists := lists[bot := [id]];
      } else if id !in lists[bot] {
        lists := lists[bot := lists[bot] + [id]];
      }
    }

    /** The expansion loop of a wildcard: every record, in order. */
    method AddAll(recs: seq<Record>)
      modifies this
      ensures Value() == InsertAll(old(Value()), recs)
    {
      var i := 0;
      while i < |recs|
        invariant 0 <= i <= |recs|
        invariant Value() == InsertAll(old(Value()), recs[..i])
      {
        assert recs[..i + 1][..i] == recs[..i];
        Add(recs[i].botId, recs[i].id);
        i := i + 1;
      }
      assert recs[..i] == recs;
    }
  }

  /** The resolution part of the BatchPush handler. */
  method ResolveTargets(pushTag: string, allUsers: seq<Record>, allGroups: seq<Record>)
    returns (r: Result<Plan, PyError>)
    ensures r == Resolve(pushTag, allUsers, allGroups)
  {
    var sendTarget := Split(pushTag, ',');
    var userSends := new SendMap();
    var groupSends := new SendMap();
    if "ALLUSER" in sendTarget {
      userSends.AddAll(allUsers);
      sendTarget := RemoveFirst(sendTarget, "ALLUSER");
    }
    if "ALLGROUP" in sendTarget {
      groupSends.AddAll(allGroups);
      sendTarget := RemoveFirst(sendTarget, "ALLGROUP");
    }
    r := WalkEntries(groupSends, userSends, sendTarget);
  }

  /** The loop over the explicit entries, adding to the two dicts. */
  method WalkEntries(groupSends: SendMap, userSends: SendMap, entries: seq<string>)
    returns (r: Result<Plan, PyError>)
    requires groupSends != userSends
    modifies groupSends, userSends
    ensures r == EntriesLoop(old(groupSends.Value()), old(userSends.Value()), entries)
    ensures r.Ok? ==> r.value == Plan(groupSends.Value(), userSends.Value())
  {
    ghost var goal := EntriesLoop(groupSends.Value(), userSends.Value(), entries);
    var i := 0;
    while i < |entries|
      invariant 0 <= i <= |entries|
      invariant EntriesLoop(groupSends.Value(), userSends.Value(), entries[i..]) == goal
    {
      assert entries[i..][1..] == entries[i + 1..];
      match Classify(entries[i]) {
        case Skip =>
        case Malformed =>
          return Err(IndexError);
        case GroupEntry(id, bot) =>
          groupSends.Add(bot, id);
        case UserEntry(id, bot) =>
          userSends.Add(bot, id);
      }
      i := i + 1;
    }
    return Ok(Plan(groupSends.Value(), userSends.Value()));
  }
}
