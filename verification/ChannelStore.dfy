/**
  `ChannelStore` (backend/app/channels/store.py): the JSON-backed map from IM
  conversations to threads, keyed by colon-joined strings.
 */
module ChannelStore {
  import opened Options
  import Text

  datatype Entry = Entry(threadId: string, userId: string, createdAt: int, updatedAt: int)

  /** A conversation; the store does not tell an empty topic from none. */
  datatype Conversation = Conversation(channel: string, chat: string, topic: Option<string>) {
    ghost predicate Plain() {
      ':' !in channel && ':' !in chat && topic != Some("")
    }
  }

  function Normal(topic: Option<string>): Option<string> {
    if topic == Some("") then None else topic
  }

  /** `_key`. */
  function Key(channel: string, chat: string, topic: Option<string>): string {
    if topic.Some? && topic.value != "" then channel + ":" + chat + ":" + topic.value
    else channel + ":" + chat
  }

  function KeyOf(c: Conversation): string {
    Key(c.channel, c.chat, c.topic)
  }

  /** How `list_entries` reads a key: `key.split(":", 2)`. */
  function Parsed(key: string): Conversation {
    var i := Text.IndexOf(key, ':');
    if i == |key| then Conversation(key, "", None)
    else
      var rest := key[i + 1..];
      var j := Text.IndexOf(rest, ':');
      if j == |rest| then Conversation(key[..i], rest, None)
      else Conversation(key[..i], rest[..j], Some(rest[j + 1..]))
  }

  lemma ParsedPair(channel: string, chat: string)
    requires ':' !in channel && ':' !in chat
    ensures Parsed(channel + ":" + chat) == Conversation(channel, chat, None)
  {
    var key := channel + ":" + chat;
    Text.IndexOfSeparator(channel, ':', chat);
    assert key == channel + [':'] + chat && key[|channel| + 1..] == chat;
    Text.IndexOfAbsent(chat, ':');
  }

  lemma ParsedTriple(channel: string, chat: string, topic: string)
    requires ':' !in channel && ':' !in chat
    ensures Parsed(channel + ":" + chat + ":" + topic) == Conversation(channel, chat, Some(topic))
  {
    var key, rest := channel + ":" + chat + ":" + topic, chat + ":" + topic;
    assert key == channel + [':'] + rest && key[|channel| + 1..] == rest && key[..|channel|] == channel;
    Text.IndexOfSeparator(channel, ':', rest);
    assert rest == chat + [':'] + topic && rest[|chat| + 1..] == topic && rest[..|chat|] == chat;
    Text.IndexOfSeparator(chat, ':', topic);
  }

  /** What a key is read as has no colon in channel and chat. */
  lemma ParsedIsPlain(key: string)
    ensures ':' !in Parsed(key).channel && ':' !in Parsed(key).chat
  {
    var i := Text.IndexOf(key, ':');
    if i < |key| {
      var j := Text.IndexOf(key[i + 1..], ':');
    }
  }

  /** `list_entries` inverts `_key` exactly on conversations with colon-free channel and chat names,
      whatever colons the topic holds. */
  lemma ParsedInvertsKeyIff(c: Conversation)
    requires c.topic != Some("")
    ensures Parsed(KeyOf(c)) == c <==> ':' !in c.channel && ':' !in c.chat
  {
    ParsedIsPlain(KeyOf(c));
    if c.Plain() {
      if c.topic.Some? {
        ParsedTriple(c.channel, c.chat, c.topic.value);
      } else {
        ParsedPair(c.channel, c.chat);
      }
    }
  }

  lemma ParsedInvertsKey(c: Conversation)
    requires c.Plain()
    ensures Parsed(KeyOf(c)) == c
  {
    ParsedInvertsKeyIff(c);
  }

  /** Keys are injective on colon-free channel and chat names. */
  lemma KeysInjective(c: Conversation, d: Conversation)
    requires c.Plain() && d.Plain() && KeyOf(c) == KeyOf(d)
    ensures c == d
  {
    ParsedInvertsKey(c);
    ParsedInvertsKey(d);
  }

  /** A colon in a chat name makes two conversations share an entry. */
  lemma ColonInChatCollides()
    ensures var c, d := Conversation("slack", "team:room", None), Conversation("slack", "team", Some("room"));
            c != d && KeyOf(c) == KeyOf(d)
  {
    assert "slack" + ":" + "team:room" == "slack" + ":" + "team" + ":" + "room";
  }

  /** The keys that `remove` deletes when no topic is given. */
  predicate UnderPrefix(key: string, prefix: string) {
    key == prefix || prefix + ":" <= key
  }

  /** ... are exactly the keys of that channel and chat, with any topic. */
  lemma UnderPrefixIff(c: Conversation, channel: string, chat: string)
    requires c.Plain() && ':' !in channel && ':' !in chat
    ensures UnderPrefix(KeyOf(c), Key(channel, chat, None)) <==> c.channel == channel && c.chat == chat
  {
    var prefix, key := Key(channel, chat, None), KeyOf(c);
    ParsedInvertsKey(c);
    if key == prefix {
      ParsedPair(channel, chat);
    }
    if prefix + ":" <= key {
      var tail := key[|prefix| + 1..];
      assert key == channel + ":" + chat + ":" + tail;
      ParsedTriple(channel, chat, tail);
    }
    if c.channel == channel && c.chat == chat && c.topic.Some? {
      assert key[..|prefix| + 1] == prefix + ":";
    }
  }

  type Data = map<string, Entry>

  function Put(data: Data, key: string, threadId: string, userId: string, now: int): Data {
    data[key := Entry(threadId, userId, if key in data then data[key].createdAt else now, now)]
  }

  function Dropped(data: Data, prefix: string): Data {
    map k | k in data && !UnderPrefix(k, prefix) :: data[k]
  }

  /** The items of `list_entries`, in the dict's insertion order. */
  datatype Item = Item(where: Conversation, entry: Entry)

  function Listing(keys: seq<string>, data: Data, channel: Option<string>): seq<Item>
    requires forall k :: k in keys ==> k in data
  {
    if keys == [] then []
    else
      var k := keys[|keys| - 1];
      Listing(keys[..|keys| - 1], data, channel)
      + (if channel.Some? && channel.value != "" && Parsed(k).channel != channel.value then []
         else [Item(Parsed(k), data[k])])
  }

  function Without(keys: seq<string>, prefix: string): (rest: seq<string>)
    ensures forall k :: k in rest <==> k in keys && !UnderPrefix(k, prefix)
  {
    if keys == [] then []
    else Without(keys[..|keys| - 1], prefix)
         + (if UnderPrefix(keys[|keys| - 1], prefix) then [] else [keys[|keys| - 1]])
  }

  ghost predicate Distinct(keys: seq<string>) {
    forall i, j :: 0 <= i < j < |keys| ==> keys[i] != keys[j]
  }

  lemma {:induction false} WithoutDistinct(keys: seq<string>, prefix: string)
    requires Distinct(keys)
    ensures Distinct(Without(keys, prefix))
  {
    if keys != [] {
      WithoutDistinct(keys[..|keys| - 1], prefix);
      var rest := Without(keys[..|keys| - 1], prefix);
      assert forall i :: 0 <= i < |rest| ==> rest[i] in rest;
    }
  }

  /** The keys without one, the others in their order. */
  function Omit(keys: seq<string>, key: string): seq<string> {
    if keys == [] then []
    else Omit(keys[..|keys| - 1], key) + (if keys[|keys| - 1] == key then [] else [keys[|keys| - 1]])
  }

  lemma {:induction false} OmitAbsent(keys: seq<string>, key: string)
    requires key !in keys
    ensures Omit(keys, key) == keys
  {
    if keys != [] {
      OmitAbsent(keys[..|keys| - 1], key);
    }
  }

  lemma {:induction false} OmitAt(keys: seq<string>, i: nat)
    requires Distinct(keys) && i < |keys|
    ensures Omit(keys, keys[i]) == keys[..i] + keys[i + 1..]
  {
    var front := keys[..|keys| - 1];
    if i == |keys| - 1 {
      OmitAbsent(front, keys[i]);
    } else {
      OmitAt(front, i);
      assert front[..i] == keys[..i];
      assert keys[i + 1..] == front[i + 1..] + [keys[|keys| - 1]];
    }
  }

  lemma {:induction false} OmitMembers(keys: seq<string>, key: string)
    requires Distinct(keys)
    ensures Distinct(Omit(keys, key))
    ensures forall k :: k in Omit(keys, key) <==> k in keys && k != key
  {
    if keys != [] {
      var front := keys[..|keys| - 1];
      OmitMembers(front, key);
      assert keys == front + [keys[|keys| - 1]];
      var rest := Omit(front, key);
      assert forall i :: 0 <= i < |rest| ==> rest[i] in rest;
    }
  }

  class Store {
    var data: Data
    var keys: seq<string>  // insertion order

    ghost predicate Valid()
      reads this
    {
      Distinct(keys) && forall k :: k in keys <==> k in data
    }

    constructor ()
      ensures Valid() && data == map[]
    {
      data, keys := map[], [];
    }

    method GetThreadId(channel: string, chat: string, topic: Option<string>) returns (r: Option<string>)
      ensures r == if Key(channel, chat, topic) in data then Some(data[Key(channel, chat, topic)].threadId) else None
    {
      var key := Key(channel, chat, topic);
      r := if key in data then Some(data[key].threadId) else None;
    }

    method SetThreadId(channel: string, chat: string, threadId: string, topic: Option<string>, userId: string, now: int)
      requires Valid()
      modifies this
      ensures Valid() && data == Put(old(data), Key(channel, chat, topic), threadId, userId, now)
      ensures var key := Key(channel, chat, topic);
              keys == if key in old(data) then old(keys) else old(keys) + [key]
    {
      var key := Key(channel, chat, topic);
      var createdAt := if key in data then data[key].createdAt else now;
      if key !in data {
        keys := keys + [key];
      }
      data := data[key := Entry(threadId, userId, createdAt, now)];
    }

    method Remove(channel: string, chat: string, topic: Option<string>) returns (removed: bool)
      requires Valid()
      modifies this
      ensures Valid()
      ensures topic.Some? ==> data == old(data) - {Key(channel, chat, topic)}
      ensures topic.Some? ==> keys == Omit(old(keys), Key(channel, chat, topic))
      ensures topic.None? ==> data == Dropped(old(data), Key(channel, chat, None))
      ensures topic.None? ==> keys == Without(old(keys), Key(channel, chat, None))
      ensures removed <==> data != old(data)
    {
      if topic.Some? {
        var key := Key(channel, chat, topic);
        if key in data {
          data := data - {key};
          RemoveKey(key);
          return true;
        }
        assert data - {key} == data;
        OmitAbsent(keys, key);
        return false;
      }
      var prefix := Key(channel, chat, None);
      var kept := Without(keys, prefix);
      if |kept| == |keys| {
        WithoutAll(keys, prefix);
        assert Dropped(data, prefix) == data;
        return false;
      }
      ghost var before := data;
      WithoutDistinct(keys, prefix);
      var gone := WithoutSome(keys, prefix);
      data := Dropped(data, prefix);
      keys := kept;
      assert gone in before && gone !in data;
      return true;
    }

    /** Deletes one key from the insertion order. */
    method RemoveKey(key: string)
      requires Distinct(keys) && key in keys
      modifies this`keys
      ensures Distinct(keys) && forall k :: k in keys <==> k in old(keys) && k != key
      ensures keys == Omit(old(keys), key)
    {
      var i := 0;
      while keys[i] != key
        invariant 0 <= i < |keys| && key in keys[i..]
        decreases |keys| - i
      {
        i := i + 1;
      }
      OmitAt(keys, i);
      OmitMembers(keys, key);
      keys := keys[..i] + keys[i + 1..];
    }

    method ListEntries(channel: Option<string>) returns (results: seq<Item>)
      requires Valid()
      ensures results == Listing(keys, data, channel)
    {
      results := [];
      var n := 0;
      while n < |keys|
        invariant 0 <= n <= |keys|
        invariant forall k :: k in keys[..n] ==> k in data
        invariant results == Listing(keys[..n], data, channel)
      {
        var key := keys[n];
        assert keys[..n + 1][..n] == keys[..n];
        n := n + 1;
        var where := Parsed(key);
        if channel.Some? && channel.value != "" && where.channel != channel.value {
          continue;
        }
        results := results + [Item(where, data[key])];
      }
      assert keys[..n] == keys;
    }
  }

  lemma {:induction false} WithoutAll(keys: seq<string>, prefix: string)
    requires |Without(keys, prefix)| == |keys|
    ensures forall k :: k in keys ==> !UnderPrefix(k, prefix)
    ensures Without(keys, prefix) == keys
  {
    if keys != [] {
      WithoutShorter(keys[..|keys| - 1], prefix);
      WithoutAll(keys[..|keys| - 1], prefix);
      assert keys == keys[..|keys| - 1] + [keys[|keys| - 1]];
    }
  }

  lemma {:induction false} WithoutShorter(keys: seq<string>, prefix: string)
    ensures |Without(keys, prefix)| <= |keys|
  {
    if keys != [] {
      WithoutShorter(keys[..|keys| - 1], prefix);
    }
  }

  lemma {:induction false} WithoutSome(keys: seq<string>, prefix: string) returns (gone: string)
    requires |Without(keys, prefix)| != |keys|
    ensures gone in keys && UnderPrefix(gone, prefix)
  {
    if UnderPrefix(keys[|keys| - 1], prefix) {
      gone := keys[|keys| - 1];
    } else {
      gone := WithoutSome(keys[..|keys| - 1], prefix);
    }
  }

  // ---------------------------------------------------------------------------
  // Whole runs: every conversation sees only its own history
  // ---------------------------------------------------------------------------

  datatype Op =
    | Set(channel: string, chat: string, topic: Option<string>, threadId: string, userId: string, now: int)
    | Remove(channel: string, chat: string, topic: Option<string>)

  /** Channel and chat names without colons. */
  ghost predicate ColonFree(ops: seq<Op>) {
    forall i :: 0 <= i < |ops| ==> ':' !in ops[i].channel && ':' !in ops[i].chat
  }

  function Applied(data: Data, op: Op): Data {
    match op
    case Set(channel, chat, topic, threadId, userId, now) => Put(data, Key(channel, chat, topic), threadId, userId, now)
    case Remove(channel, chat, topic) =>
      if topic.Some? then data - {Key(channel, chat, topic)} else Dropped(data, Key(channel, chat, None))
  }

  function Replay(ops: seq<Op>): Data {
    if ops == [] then map[] else Applied(Replay(ops[..|ops| - 1]), ops[|ops| - 1])
  }

  /** Does the operation concern the conversation? */
  predicate Touches(op: Op, c: Conversation) {
    && op.channel == c.channel && op.chat == c.chat
    && ((op.Remove? && op.topic.None?) || Normal(op.topic) == c.topic)
  }

  /** What a conversation should hold: the last id set since its last removal, created when the
      first of those sets ran. */
  function History(ops: seq<Op>, c: Conversation): Option<Entry> {
    if ops == [] then None
    else
      var op, before := ops[|ops| - 1], History(ops[..|ops| - 1], c);
      if !Touches(op, c) then before
      else if op.Remove? then None
      else Some(Entry(op.threadId, op.userId, if before.Some? then before.value.createdAt else op.now, op.now))
  }

  function Held(data: Data, key: string): Option<Entry> {
    if key in data then Some(data[key]) else None
  }

  lemma SameKeyIff(op: Op, c: Conversation)
    requires c.Plain() && ':' !in op.channel && ':' !in op.chat
    ensures Key(op.channel, op.chat, op.topic) == KeyOf(c)
            <==> op.channel == c.channel && op.chat == c.chat && Normal(op.topic) == c.topic
  {
    var d := Conversation(op.channel, op.chat, Normal(op.topic));
    assert d.Plain() && KeyOf(d) == Key(op.channel, op.chat, op.topic);
    if KeyOf(d) == KeyOf(c) {
      KeysInjective(d, c);
    }
  }

  /** The shared string-keyed map keeps conversations apart: each lookup is that conversation's history. */
  lemma {:induction false} LookupIsHistory(ops: seq<Op>, c: Conversation)
    requires ColonFree(ops) && c.Plain()
    ensures Held(Replay(ops), KeyOf(c)) == History(ops, c)
    decreases |ops|
  {
    if ops != [] {
      var front, op := ops[..|ops| - 1], ops[|ops| - 1];
      LookupIsHistory(front, c);
      SameKeyIff(op, c);
      UnderPrefixIff(c, op.channel, op.chat);
    }
  }

  /** No key is ever stored that is not some conversation's. */
  lemma {:induction false} KeysAreConversations(ops: seq<Op>, k: string)
    requires ColonFree(ops) && k in Replay(ops)
    ensures Parsed(k).Plain() && KeyOf(Parsed(k)) == k
    decreases |ops|
  {
    var front, op := ops[..|ops| - 1], ops[|ops| - 1];
    if k in Replay(front) {
      KeysAreConversations(front, k);
    } else {
      var c := Conversation(op.channel, op.chat, Normal(op.topic));
      assert op.Set? && k == KeyOf(c);
      ParsedInvertsKey(c);
    }
  }

  lemma {:induction false} ListingMembers(keys: seq<string>, data: Data, channel: Option<string>, item: Item)
    requires forall k :: k in keys ==> k in data
    ensures item in Listing(keys, data, channel) <==>
            exists k :: k in keys && item == Item(Parsed(k), data[k]) && Listed(item, channel)
    decreases |keys|
  {
    if keys != [] {
      var front, k := keys[..|keys| - 1], keys[|keys| - 1];
      ListingMembers(front, data, channel, item);
      assert keys == front + [k];
    }
  }

  /** Unfiltered, the listing has one item for each key, in the order of the keys. */
  lemma {:induction false} ListingInOrder(keys: seq<string>, data: Data, i: nat)
    requires (forall k :: k in keys ==> k in data) && i < |keys|
    ensures |Listing(keys, data, None)| == |keys|
    ensures Listing(keys, data, None)[i] == Item(Parsed(keys[i]), data[keys[i]])
    decreases |keys|
  {
    var n := |keys| - 1;
    if n > 0 {
      ListingInOrder(keys[..n], data, if i < n then i else 0);
    }
  }

  /** The items of a channel, in their order. */
  function OfChannel(items: seq<Item>, channel: string): seq<Item> {
    if items == [] then []
    else (if items[0].where.channel == channel then [items[0]] else []) + OfChannel(items[1..], channel)
  }

  lemma {:induction false} OfChannelConcat(a: seq<Item>, b: seq<Item>, channel: string)
    ensures OfChannel(a + b, channel) == OfChannel(a, channel) + OfChannel(b, channel)
  {
    if a == [] {
      assert a + b == b;
    } else {
      assert (a + b)[1..] == a[1..] + b;
      OfChannelConcat(a[1..], b, channel);
    }
  }

  /** With a channel asked for, it is the items of that channel, in the same order. */
  lemma {:induction false} ListingOfChannel(keys: seq<string>, data: Data, channel: string)
    requires (forall k :: k in keys ==> k in data) && channel != ""
    ensures Listing(keys, data, Some(channel)) == OfChannel(Listing(keys, data, None), channel)
    ensures Listing(keys, data, Some("")) == Listing(keys, data, None)
    decreases |keys|
  {
    if keys != [] {
      var n := |keys| - 1;
      ListingOfChannel(keys[..n], data, channel);
      var item := Item(Parsed(keys[n]), data[keys[n]]);
      OfChannelConcat(Listing(keys[..n], data, None), [item], channel);
      assert [item][1..] == [];
    }
  }

  predicate Listed(item: Item, channel: Option<string>) {
    channel.None? || channel.value == "" || item.where.channel == channel.value
  }

  /** `list_entries` after any run names exactly the live conversations (of the channel asked for),
      each with its own entry. */
  lemma ListingIsHistory(ops: seq<Op>, keys: seq<string>, channel: Option<string>, item: Item)
    requires ColonFree(ops) && forall k :: k in keys <==> k in Replay(ops)
    ensures item in Listing(keys, Replay(ops), channel) <==>
            item.where.Plain() && Listed(item, channel) && History(ops, item.where) == Some(item.entry)
  {
    var data := Replay(ops);
    ListingMembers(keys, data, channel, item);
    if k :| k in keys && item == Item(Parsed(k), data[k]) && Listed(item, channel) {
      KeysAreConversations(ops, k);
      LookupIsHistory(ops, item.where);
    }
    if item.where.Plain() && Listed(item, channel) && History(ops, item.where) == Some(item.entry) {
      ParsedInvertsKey(item.where);
      LookupIsHistory(ops, item.where);
      assert KeyOf(item.where) in keys;
    }
  }
}
