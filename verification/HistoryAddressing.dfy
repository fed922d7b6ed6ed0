/**
 Which phone a dump's LID addresses stand for: jids split by hand, pairs merged from several sources with both
 sides checked against their domain, and the live addressing fields stamped back on history keys.
 */
module HistoryAddressing {
  import opened Wrappers

  type Jid = string

  // ---- jids ----

  // The text before the first `c`, or all of it.
  function UpTo(s: string, c: char): (r: string)
    ensures c !in r && r <= s
    ensures |r| < |s| ==> s[|r|] == c
  {
    if s == "" || s[0] == c then "" else [s[0]] + UpTo(s[1..], c)
  }

  datatype Address = Address(user: string, server: string)

  // [address, server] = jid.split("@"), the device and agent suffixes dropped from the address.
  function SplitJid(jid: Option<Jid>): (r: Option<Address>)
    ensures r.Some? ==> r.value.user != "" && r.value.server != "" && '@' !in r.value.user && '@' !in r.value.server
    ensures r.Some? ==> ':' !in r.value.user && '_' !in r.value.user
  {
    var text := if jid.Some? then jid.value else "";
    var address := UpTo(text, '@');
    if |address| == |text| then None
    else
      var server := UpTo(text[|address| + 1..], '@');
      var user := UpTo(UpTo(address, ':'), '_');
      if user == "" || server == "" then None else Some(Address(user, server))
  }

  function Format(a: Address): Jid {
    a.user + "@" + a.server
  }

  const LID_SERVERS := ["lid", "hosted.lid"]
  const PHONE_SERVERS := ["s.whatsapp.net", "c.us", "hosted"]

  function LidUser(jid: Option<Jid>): Option<string> {
    var decoded := SplitJid(jid);
    if decoded.Some? && decoded.value.server in LID_SERVERS then Some(decoded.value.user) else None
  }

  predicate IsPhone(jid: Jid) {
    SplitJid(Some(jid)).Some? && SplitJid(Some(jid)).value.server in PHONE_SERVERS
  }

  /** A jid names a LID's user exactly on a LID's server; so no jid is both a LID and a phone. */
  lemma LidUserIff(a: Address)
    requires a.user != "" && a.server != "" && '@' !in a.user && '@' !in a.server && ':' !in a.user && '_' !in a.user
    ensures LidUser(Some(Format(a))) == if a.server == "lid" || a.server == "hosted.lid" then Some(a.user) else None
    ensures IsPhone(Format(a)) <==> a.server == "s.whatsapp.net" || a.server == "c.us" || a.server == "hosted"
  {
    NormalizedJidSplits(a);
  }

  lemma {:induction false} UpToFinds(s: string, c: char, rest: string)
    requires c !in s
    ensures UpTo(s + [c] + rest, c) == s && UpTo(s, c) == s
  {
    if s != "" {
      UpToFinds(s[1..], c, rest);
      assert (s + [c] + rest)[1..] == s[1..] + [c] + rest;
      assert s == [s[0]] + s[1..];
    }
  }

  /** A normalized jid splits back into what it was put together from, so normalizing twice changes nothing. */
  lemma NormalizedJidSplits(a: Address)
    requires a.user != "" && a.server != "" && '@' !in a.user && '@' !in a.server && ':' !in a.user && '_' !in a.user
    ensures SplitJid(Some(Format(a))) == Some(a)
  {
    var text := Format(a);
    assert text == a.user + ['@'] + a.server;
    UpToFinds(a.user, '@', a.server);
    assert text[|a.user| + 1..] == a.server;
    UpToFinds(a.server, '@', "");
    UpToFinds(a.user, ':', "");
    UpToFinds(a.user, '_', "");
  }

  /** One account, whatever device suffix its jid carries. */
  lemma DeviceSuffixIsDropped(a: Address, device: string)
    requires a.user != "" && a.server != "" && '@' !in a.user && '@' !in a.server && ':' !in a.user && '_' !in a.user
    requires '@' !in device
    ensures SplitJid(Some(a.user + ":" + device + "@" + a.server)) == Some(a)
  {
    var address := a.user + [':'] + device;
    var text := address + ['@'] + a.server;
    assert text == a.user + ":" + device + "@" + a.server;
    UpToFinds(address, '@', a.server);
    assert text[|address| + 1..] == a.server;
    UpToFinds(a.server, '@', "");
    UpToFinds(a.user, ':', device);
    UpToFinds(a.user, '_', "");
  }

  // ---- the index ----

  datatype Pair = Pair(lid: Option<Jid>, pn: Option<Jid>)
  type Index = map<string, Jid>

  // A pair says something only when its lid is a LID and its pn a phone.
  function Reading(p: Pair): Option<(string, Jid)> {
    var user, phone := LidUser(p.lid), SplitJid(p.pn);
    if user.None? || phone.None? || phone.value.server !in PHONE_SERVERS then None
    else Some((user.value, Format(phone.value)))
  }

  predicate Names(p: Pair, user: string) {
    Reading(p).Some? && Reading(p).value.0 == user
  }

  function FirstNaming(pairs: seq<Pair>, user: string): Option<Jid> {
    if pairs == [] then None
    else if Names(pairs[0], user) then Some(Reading(pairs[0]).value.1)
    else FirstNaming(pairs[1..], user)
  }

  function Flat(sources: seq<seq<Pair>>): seq<Pair> {
    if sources == [] then [] else sources[0] + Flat(sources[1..])
  }

  predicate IsPlain(a: Address) {
    a.user != "" && a.server != "" && '@' !in a.user && '@' !in a.server && ':' !in a.user && '_' !in a.user
  }

  /** A pair of a LID and a phone names the LID's user with that phone; a pair with any other server names nobody. */
  lemma PairReadsIff(lid: Address, pn: Address)
    requires IsPlain(lid) && IsPlain(pn)
    ensures Reading(Pair(Some(Format(lid)), Some(Format(pn)))) ==
            if (lid.server == "lid" || lid.server == "hosted.lid")
               && (pn.server == "s.whatsapp.net" || pn.server == "c.us" || pn.server == "hosted")
            then Some((lid.user, Format(pn))) else None
  {
    LidUserIff(lid);
    NormalizedJidSplits(pn);
  }

  lemma FirstNamingIs(p: Pair, rest: seq<Pair>, user: string)
    ensures FirstNaming([p] + rest, user) ==
            if Reading(p).Some? && Reading(p).value.0 == user then Some(Reading(p).value.1) else FirstNaming(rest, user)
    ensures FirstNaming([], user) == None
  {
    assert ([p] + rest)[1..] == rest;
  }

  // The index answers every user as the first pair naming it does, and no other.
  ghost predicate Answers(index: Index, pairs: seq<Pair>) {
    forall user: string :: Lookup(index, user) == FirstNaming(pairs, user)
  }

  function Lookup(index: Index, user: string): Option<Jid> {
    if user in index then Some(index[user]) else None
  }

  lemma {:induction false} FirstNamingSnoc(pairs: seq<Pair>, p: Pair, user: string)
    ensures FirstNaming(pairs + [p], user) ==
            if FirstNaming(pairs, user).Some? then FirstNaming(pairs, user)
            else if Names(p, user) then Some(Reading(p).value.1) else None
    decreases |pairs|
  {
    var all := pairs + [p];
    if pairs == [] {
      assert all[1..] == [];
    } else {
      assert all[1..] == pairs[1..] + [p];
      FirstNamingSnoc(pairs[1..], p, user);
    }
  }

  function Added(index: Index, p: Pair): Index {
    if Reading(p).None? || Reading(p).value.0 in index then index else index[Reading(p).value.0 := Reading(p).value.1]
  }

  lemma AddedAnswers(index: Index, pairs: seq<Pair>, p: Pair)
    requires Answers(index, pairs)
    ensures Answers(Added(index, p), pairs + [p])
  {
    forall user: string
      ensures Lookup(Added(index, p), user) == FirstNaming(pairs + [p], user)
    {
      FirstNamingSnoc(pairs, p, user);
      assert Lookup(index, user) == FirstNaming(pairs, user);
    }
  }

  lemma {:induction false} FlatSnoc(sources: seq<seq<Pair>>, s: seq<Pair>)
    ensures Flat(sources + [s]) == Flat(sources) + s
    decreases |sources|
  {
    var all := sources + [s];
    if sources == [] {
      assert all[1..] == [] && all[0] == s;
    } else {
      assert all[1..] == sources[1..] + [s];
      FlatSnoc(sources[1..], s);
    }
  }

  /** An absent source is an empty one. The first source to name a LID decides it. */
  method LidPnIndex(sources: seq<Option<seq<Pair>>>) returns (index: Index)
    ensures Answers(index, Flat(Present(sources)))
  {
    index := map[];
    for i := 0 to |sources|
      invariant Answers(index, Flat(Present(sources[..i])))
    {
      ghost var before := Flat(Present(sources[..i]));
      var pairs := if sources[i].Some? then sources[i].value else [];
      assert sources[..i + 1] == sources[..i] + [sources[i]];
      PresentSnoc(sources[..i], sources[i]);
      FlatSnoc(Present(sources[..i]), pairs);
      assert before + pairs[..0] == before;
      for k := 0 to |pairs|
        invariant Answers(index, before + pairs[..k])
      {
        AddedAnswers(index, before + pairs[..k], pairs[k]);
        assert before + pairs[..k + 1] == before + pairs[..k] + [pairs[k]];
        var user, phone := LidUser(pairs[k].lid), SplitJid(pairs[k].pn);
        if user.None? || phone.None? || phone.value.server !in PHONE_SERVERS {
          continue;
        }
        if user.value !in index {
          index := index[user.value := Format(phone.value)];
        }
      }
      assert before + pairs[..|pairs|] == before + pairs;
    }
    assert sources[..|sources|] == sources;
  }

  function Present(sources: seq<Option<seq<Pair>>>): seq<seq<Pair>> {
    seq(|sources|, i requires 0 <= i < |sources| => if sources[i].Some? then sources[i].value else [])
  }

  lemma PresentSnoc(sources: seq<Option<seq<Pair>>>, s: Option<seq<Pair>>)
    ensures Present(sources + [s]) == Present(sources) + [if s.Some? then s.value else []]
  {
  }

  lemma {:induction false} FirstNamingIsPhone(pairs: seq<Pair>, user: string)
    requires FirstNaming(pairs, user).Some?
    ensures IsPhone(FirstNaming(pairs, user).value)
    ensures exists p :: p in pairs && LidUser(p.lid) == Some(user) &&
              SplitJid(p.pn) == SplitJid(FirstNaming(pairs, user))
  {
    if Names(pairs[0], user) {
      NormalizedJidSplits(SplitJid(pairs[0].pn).value);
      assert pairs[0] in pairs;
    } else {
      FirstNamingIsPhone(pairs[1..], user);
    }
  }

  // ---- stamping the keys ----

  datatype Key = Key(
    remoteJid: Option<Jid>,
    participant: Option<Jid>,
    addressingMode: Option<string>,
    remoteJidAlt: Option<Jid>,
    participantAlt: Option<Jid>
  )

  function SenderOf(key: Key): Option<string> {
    if LidUser(key.participant).Some? then LidUser(key.participant) else LidUser(key.remoteJid)
  }

  predicate IsGroup(key: Key) {
    SplitJid(key.remoteJid).Some? && SplitJid(key.remoteJid).value.server == "g.us"
  }

  function RestoredKey(key: Key, index: Index): Key {
    var sender := SenderOf(key);
    if sender.None? then key
    else
      var stamped := key.(addressingMode := Some("lid"));
      if sender.value !in index then stamped
      else if IsGroup(key) then stamped.(participantAlt := Some(index[sender.value]))
      else stamped.(remoteJidAlt := Some(index[sender.value]))
  }

  function RestoreAddressing(keys: seq<Option<Key>>, index: Index): (r: seq<Option<Key>>)
    ensures |r| == |keys|
  {
    seq(|keys|, i requires 0 <= i < |keys| => if keys[i].None? then None else Some(RestoredKey(keys[i].value, index)))
  }

  /**
   With an index built from any sources at all, whichever way round their pairs were handed over: every address
   the restoration adds is a phone's, named for the message's own sender, in the one field its chat calls for;
   and a message without a LID sender is left as it was.
   */
  lemma RestoredAltsArePhones(keys: seq<Option<Key>>, pairs: seq<Pair>, index: Index, i: nat)
    requires Answers(index, pairs) && i < |keys| && keys[i].Some?
    ensures var key := keys[i].value;
            var restored := RestoreAddressing(keys, index)[i].value;
            && (SenderOf(key).None? ==> restored == key)
            && (SenderOf(key).Some? ==> restored.addressingMode == Some("lid"))
            && restored.remoteJid == key.remoteJid && restored.participant == key.participant
            && (restored.remoteJidAlt != key.remoteJidAlt ==>
                  !IsGroup(key) && restored.remoteJidAlt.Some? && IsPhone(restored.remoteJidAlt.value)
                  && restored.remoteJidAlt == FirstNaming(pairs, SenderOf(key).value))
            && (restored.participantAlt != key.participantAlt ==>
                  IsGroup(key) && restored.participantAlt.Some? && IsPhone(restored.participantAlt.value)
                  && restored.participantAlt == FirstNaming(pairs, SenderOf(key).value))
  {
    var sender := SenderOf(keys[i].value);
    if sender.Some? {
      assert Lookup(index, sender.value) == FirstNaming(pairs, sender.value);
      if sender.value in index {
        FirstNamingIsPhone(pairs, sender.value);
      }
    }
  }

  /**
   And every LID sender the pairs name gets the address: the participant if it is a LID, else the chat, is looked
   up, and what the first pair naming it answers is stamped into the field the chat calls for, and nothing else.
   */
  lemma KnownSendersGetTheirPhones(keys: seq<Option<Key>>, pairs: seq<Pair>, index: Index, i: nat)
    requires Answers(index, pairs) && i < |keys| && keys[i].Some?
    ensures var key := keys[i].value;
            var sender := if LidUser(key.participant).Some? then LidUser(key.participant) else LidUser(key.remoteJid);
            var phone := if sender.Some? then FirstNaming(pairs, sender.value) else None;
            var inGroup := SplitJid(key.remoteJid).Some? && SplitJid(key.remoteJid).value.server == "g.us";
            RestoreAddressing(keys, index)[i] ==
            Some(Key(key.remoteJid, key.participant,
                     if sender.Some? then Some("lid") else key.addressingMode,
                     if phone.Some? && !inGroup then phone else key.remoteJidAlt,
                     if phone.Some? && inGroup then phone else key.participantAlt))
  {
    var sender := SenderOf(keys[i].value);
    if sender.Some? {
      assert Lookup(index, sender.value) == FirstNaming(pairs, sender.value);
    }
  }

  /** A message without a key stays without one. */
  lemma KeylessStaysKeyless(keys: seq<Option<Key>>, index: Index, i: nat)
    requires i < |keys|
    ensures RestoreAddressing(keys, index)[i].None? <==> keys[i].None?
  {
  }
}
