/** `generate_config` (app/main.py): the selected chats and senders become
    the `{telegram: {chats: [...]}}` structure, each chat carrying the
    senders selected for it. The YAML text made from it is not modelled. */
module ConfigGen {
  import opened Common

  /** A chat selection `{id, name?}`. */
  datatype ChatSelection = ChatSelection(id: int, name: Option<string>)

  /** A sender selection `{id, name?, chat_id?}`. */
  datatype SenderSelection = SenderSelection(id: int, name: Option<string>, chatId: Option<int>)

  /** A sender entry `{id, name}` of the output. */
  datatype SenderEntry = SenderEntry(id: int, name: string)

  /** A chat entry `{id, name, senders?}`; `None` when the key is absent. */
  datatype ChatConfig = ChatConfig(id: int, name: string, senders: Option<seq<SenderEntry>>)

  datatype TelegramConfig = TelegramConfig(chats: seq<ChatConfig>)

  datatype Config = Config(telegram: TelegramConfig)

  /** A sender's projection to `{id, name}`; a missing name becomes "". */
  function EntryOf(s: SenderSelection): SenderEntry {
    SenderEntry(s.id, s.name.GetOr(""))
  }

  /** The entries of the senders whose `chat_id` is `key`, in input order,
      duplicates kept. */
  function SendersWithKey(ss: seq<SenderSelection>, key: Option<int>): (r: seq<SenderEntry>)
    ensures |r| <= |ss|
  {
    if ss == [] then []
    else
      var init, last := ss[..|ss| - 1], ss[|ss| - 1];
      SendersWithKey(init, key) + (if last.chatId == key then [EntryOf(last)] else [])
  }

  /** Every entry of a group is the projection of a sender with that
      `chat_id`. */
  lemma {:induction false} SendersWithKeyTrace(ss: seq<SenderSelection>, key: Option<int>, n: int)
    requires 0 <= n < |SendersWithKey(ss, key)|
    ensures exists j :: 0 <= j < |ss| && ss[j].chatId == key && SendersWithKey(ss, key)[n] == EntryOf(ss[j])
  {
    var init := ss[..|ss| - 1];
    if n < |SendersWithKey(init, key)| {
      SendersWithKeyTrace(init, key, n);
      var j :| 0 <= j < |init| && init[j].chatId == key && SendersWithKey(init, key)[n] == EntryOf(init[j]);
      assert ss[j] == init[j];
    } else {
      assert SendersWithKey(ss, key)[n] == EntryOf(ss[|ss| - 1]);
    }
  }

  /** Grouping keeps input order: it distributes over concatenation. */
  lemma {:induction false} SendersWithKeyAppend(a: seq<SenderSelection>, b: seq<SenderSelection>, key: Option<int>)
    ensures SendersWithKey(a + b, key) == SendersWithKey(a, key) + SendersWithKey(b, key)
    decreases |b|
  {
    if b == [] {
      assert a + b == a;
    } else {
      var b', x := b[..|b| - 1], b[|b| - 1];
      assert (a + b)[..|a + b| - 1] == a + b';
      assert (a + b)[|a + b| - 1] == x;
      SendersWithKeyAppend(a, b', key);
    }
  }

  /** Every sender with that `chat_id` is in the group. */
  lemma {:induction false} SendersWithKeyComplete(ss: seq<SenderSelection>, key: Option<int>, j: int)
    requires 0 <= j < |ss| && ss[j].chatId == key
    ensures EntryOf(ss[j]) in SendersWithKey(ss, key)
  {
    assert ss == ss[..j] + ([ss[j]] + ss[j + 1..]);
    SendersWithKeyAppend(ss[..j], [ss[j]] + ss[j + 1..], key);
    SendersWithKeyAppend([ss[j]], ss[j + 1..], key);
    assert [ss[j]][..0] == [];
  }

  /** A group is empty exactly when no sender has that `chat_id`. */
  lemma {:induction false} SendersWithKeyEmpty(ss: seq<SenderSelection>, key: Option<int>)
    ensures SendersWithKey(ss, key) == [] <==> forall j :: 0 <= j < |ss| ==> ss[j].chatId != key
  {
    if ss != [] {
      var init := ss[..|ss| - 1];
      SendersWithKeyEmpty(init, key);
      assert forall j :: 0 <= j < |init| ==> init[j] == ss[j];
    }
  }

  /** The entry emitted for one chat: its id, its name (default ""), and its
      group of senders when that group is non-empty. */
  function ChatConfigFor(c: ChatSelection, ss: seq<SenderSelection>): (r: ChatConfig)
    ensures r.id == c.id && r.name == c.name.GetOr("")
    ensures r.senders.Some? <==> exists j :: 0 <= j < |ss| && ss[j].chatId == Some(c.id)
    ensures r.senders.Some? ==> r.senders.value == SendersWithKey(ss, Some(c.id))
  {
    var group := SendersWithKey(ss, Some(c.id));
    SendersWithKeyEmpty(ss, Some(c.id));
    ChatConfig(c.id, c.name.GetOr(""), if group == [] then None else Some(group))
  }

  /** The structure `generate_config` returns: one entry per input chat, in
      input order. */
  function ConfigFor(chats: seq<ChatSelection>, ss: seq<SenderSelection>): (cfg: Config)
    ensures |cfg.telegram.chats| == |chats|
    ensures forall i :: 0 <= i < |chats| ==> cfg.telegram.chats[i] == ChatConfigFor(chats[i], ss)
  {
    Config(TelegramConfig(seq(|chats|, i requires 0 <= i < |chats| => ChatConfigFor(chats[i], ss))))
  }

  /** The chat ids of the output are those of the input, in the same order. */
  lemma ConfigKeepsChatIds(chats: seq<ChatSelection>, ss: seq<SenderSelection>)
    ensures var out := ConfigFor(chats, ss).telegram.chats;
            |out| == |chats| && forall i :: 0 <= i < |chats| ==> out[i].id == chats[i].id
  {
  }

  /** Dropping a sender with another `chat_id` leaves a group unchanged. */
  lemma SendersWithKeySkip(ss: seq<SenderSelection>, j: int, key: Option<int>)
    requires 0 <= j < |ss| && ss[j].chatId != key
    ensures SendersWithKey(ss, key) == SendersWithKey(ss[..j] + ss[j + 1..], key)
  {
    assert ss == ss[..j] + ([ss[j]] + ss[j + 1..]);
    SendersWithKeyAppend(ss[..j], [ss[j]] + ss[j + 1..], key);
    SendersWithKeyAppend([ss[j]], ss[j + 1..], key);
    SendersWithKeyAppend(ss[..j], ss[j + 1..], key);
    assert [ss[j]][..0] == [];
  }

  /** A sender whose `chat_id` matches no selected chat appears nowhere:
      dropping it from the input leaves the output unchanged. */
  lemma OrphanSenderIgnored(chats: seq<ChatSelection>, ss: seq<SenderSelection>, j: int)
    requires 0 <= j < |ss|
    requires forall i :: 0 <= i < |chats| ==> ss[j].chatId != Some(chats[i].id)
    ensures ConfigFor(chats, ss) == ConfigFor(chats, ss[..j] + ss[j + 1..])
  {
    var rest := ss[..j] + ss[j + 1..];
    forall i | 0 <= i < |chats|
      ensures ChatConfigFor(chats[i], ss) == ChatConfigFor(chats[i], rest)
    {
      SendersWithKeySkip(ss, j, Some(chats[i].id));
    }
    assert ConfigFor(chats, ss).telegram.chats == ConfigFor(chats, rest).telegram.chats;
  }

  /** Two chats, one sender selected for the first: only the first entry
      gets a `senders` key. */
  lemma TwoChatsOneSender()
    ensures ConfigFor([ChatSelection(1, Some("A")), ChatSelection(2, Some("B"))],
                      [SenderSelection(10, Some("X"), Some(1))])
         == Config(TelegramConfig([ChatConfig(1, "A", Some([SenderEntry(10, "X")])), ChatConfig(2, "B", None)]))
  {
    var ss := [SenderSelection(10, Some("X"), Some(1))];
    assert ss[..0] == [];
    assert SendersWithKey(ss, Some(1)) == [SenderEntry(10, "X")];
    assert SendersWithKey(ss, Some(2)) == [];
  }

  /** `generate_config`: first groups the senders by `chat_id` in a map,
      then emits one entry per chat, adding `senders` when its id is a key
      of the map. */
  method GenerateConfig(chats: seq<ChatSelection>, senders: seq<SenderSelection>) returns (cfg: Config)
    ensures cfg == ConfigFor(chats, senders)
  {
    var sendersByChat: map<Option<int>, seq<SenderEntry>> := map[];
    var i := 0;
    while i < |senders|
      invariant 0 <= i <= |senders|
      invariant forall k :: k in sendersByChat ==> sendersByChat[k] == SendersWithKey(senders[..i], k) != []
      invariant forall k :: k !in sendersByChat ==> SendersWithKey(senders[..i], k) == []
    {
      var s := senders[i];
      assert senders[..i + 1][..i] == senders[..i];
      if s.chatId !in sendersByChat {
        sendersByChat := sendersByChat[s.chatId := []];
      }
      sendersByChat := sendersByChat[s.chatId := sendersByChat[s.chatId] + [EntryOf(s)]];
      i := i + 1;
    }
    assert senders[..i] == senders;

    var out: seq<ChatConfig> := [];
    i := 0;
    while i < |chats|
      invariant 0 <= i <= |chats|
      invariant |out| == i
      invariant forall n :: 0 <= n < i ==> out[n] == ChatConfigFor(chats[n], senders)
    {
      var c := chats[i];
      var chatConfig := ChatConfig(c.id, c.name.GetOr(""), None);
      if Some(c.id) in sendersByChat {
        chatConfig := chatConfig.(senders := Some(sendersByChat[Some(c.id)]));
      }
      out := out + [chatConfig];
      i := i + 1;
    }
    cfg := Config(TelegramConfig(out));
  }
}
