/**
 * The bot's command handlers (bot_handler.py): argument parsing for `/setquery`,
 * `/addchannel` and `/removechannel`, and the channel listing of `/listchannels`
 * with its 3500-character chunking. Replies are recorded as values; their wording
 * is not.
 */
module BotCommands {
  import opened Text
  import ChannelStore
  import QueryStore

  const SetQueryCommand: string := "/setquery"
  const AddChannelCommand: string := "/addchannel"
  const RemoveChannelCommand: string := "/removechannel"

  // ---------------------------------------------------------------------------
  // Arguments

  /** `text.removeprefix(command).strip()`. */
  function CommandArgument(text: string, command: string): (arg: string)
    ensures Trimmed(arg)
    ensures !StartsWith(text, command) ==> arg == Strip(text)
  {
    StripTrimmed(RemovePrefix(text, command));
    Strip(RemovePrefix(text, command))
  }

  /** The command, any whitespace, then a trimmed argument, then whitespace: the argument comes back. */
  lemma ArgumentAfterCommand(command: string, w1: string, arg: string, w2: string)
    requires AllSpace(w1) && AllSpace(w2) && Trimmed(arg)
    ensures CommandArgument(command + w1 + arg + w2, command) == arg
  {
    var text := command + w1 + arg + w2;
    assert text == command + (w1 + arg + w2);
    assert text[..|command|] == command;
    assert text[|command|..] == w1 + arg + w2;
    StripIgnoresPadding(w1, arg, w2);
    StripTrimmed(arg);
  }

  /**
   * The channel argument of `/addchannel` and `/removechannel`: `None` when the stripped
   * argument is empty (the error reply), otherwise the argument without its leading '@'s.
   * The emptiness test comes before the '@'s go.
   */
  function ChannelArgument(text: string, command: string): (channel: Option<string>)
    ensures channel.None? <==> CommandArgument(text, command) == []
    ensures channel.Some? ==> channel.value == [] || channel.value[0] != '@'
    ensures channel.Some? ==> |channel.value| <= |CommandArgument(text, command)|
    ensures channel.Some? ==> CommandArgument(text, command)[|CommandArgument(text, command)| - |channel.value|..] == channel.value
    ensures channel.Some? ==>
      forall i :: 0 <= i < |CommandArgument(text, command)| - |channel.value| ==> CommandArgument(text, command)[i] == '@'
  {
    var arg := CommandArgument(text, command);
    if arg == [] then None
    else
      var channel := LStripChar(arg, '@');
      assert arg[|arg| - |channel|..] == channel;
      Some(channel)
  }

  /** A handle after the command gives the name without its '@'. */
  lemma ChannelArgumentOfHandle(command: string, w: string, name: string)
    requires AllSpace(w) && Trimmed(name) && (name == [] || name[0] != '@')
    ensures ChannelArgument(command + w + ("@" + name), command) == Some(name)
  {
    var handle := "@" + name;
    assert Trimmed(handle) by {
      if name != [] {
        assert handle[|handle| - 1] == name[|name| - 1];
      }
    }
    ArgumentAfterCommand(command, w, handle, []);
    assert command + w + handle + [] == command + w + handle;
    assert handle[1..] == name;
    assert LStripChar(handle, '@') == LStripChar(name, '@');
  }

  /** A bare name after the command comes back as it is; nothing at all is the error case. */
  lemma ChannelArgumentOfName(command: string, w: string, name: string)
    requires AllSpace(w) && Trimmed(name) && (name == [] || name[0] != '@')
    ensures ChannelArgument(command + w + name, command) == if name == [] then None else Some(name)
  {
    ArgumentAfterCommand(command, w, name, []);
    assert command + w + name + [] == command + w + name;
  }

  /** A lone "@" passes the emptiness test and becomes the empty channel name. */
  lemma LoneAtSignBecomesEmptyName()
    ensures ChannelArgument("/addchannel @", AddChannelCommand) == Some("")
  {
    assert "/addchannel @" == AddChannelCommand + " " + ("@" + "");
    assert AllSpace(" ") by { assert IsSpace(' '); }
    ChannelArgumentOfHandle(AddChannelCommand, " ", "");
  }

  // ---------------------------------------------------------------------------
  // `/setquery`, `/addchannel`, `/removechannel`

  datatype QueryReply =
    | QueryMissing              // "Please provide a search query"
    | QueryUpdated(query: string)
    | QueryUpdateFailed

  /** `set_query`: an empty argument writes nothing; otherwise exactly one write, and the reply follows it. */
  method SetQuery(text: string, store: QueryStore.Store, outcome: QueryStore.WriteOutcome)
    returns (reply: QueryReply)
    modifies store
    ensures CommandArgument(text, SetQueryCommand) == [] ==>
      reply == QueryMissing && store.file == old(store.file)
    ensures CommandArgument(text, SetQueryCommand) != [] ==>
      var query := CommandArgument(text, SetQueryCommand);
      && store.file == QueryStore.AfterWrite(old(store.file), query, outcome)
      && reply == (if outcome == QueryStore.Written then QueryUpdated(query) else QueryUpdateFailed)
  {
    var query := CommandArgument(text, SetQueryCommand);
    if query == [] {
      return QueryMissing;
    }
    var ok := store.SetCurrentQuery(query, outcome);
    if ok {
      reply := QueryUpdated(query);
    } else {
      reply := QueryUpdateFailed;
    }
  }

  datatype ChannelReply =
    | ChannelMissing                                      // "Please provide a channel name or ID"
    | ChannelAdded(channel: string, monitored: seq<string>)
    | AlreadyMonitored(channel: string)
    | ChannelRemoved(channel: string, monitored: seq<string>)
    | NotMonitored(channel: string)

  /** The listing a success reply carries: `get_monitored_channels()` after the change. */
  ghost predicate Lists(monitored: seq<string>, channels: set<string>) {
    ChannelStore.StrictlySorted(monitored) && forall x :: x in monitored <==> x in channels
  }

  /** `add_channel_handler`. */
  method AddChannelHandler(text: string, registry: ChannelStore.Registry) returns (reply: ChannelReply)
    modifies registry
    ensures ChannelArgument(text, AddChannelCommand).None? ==>
      reply == ChannelMissing && registry.channels == old(registry.channels)
    ensures ChannelArgument(text, AddChannelCommand).Some? ==>
      var channel := ChannelArgument(text, AddChannelCommand).value;
      && registry.channels == old(registry.channels) + {channel}
      && (channel in old(registry.channels) ==> reply == AlreadyMonitored(channel))
      && (channel !in old(registry.channels) ==>
            reply.ChannelAdded? && reply.channel == channel && Lists(reply.monitored, registry.channels))
  {
    var channel := CommandArgument(text, AddChannelCommand);
    if channel == [] {
      return ChannelMissing;
    }
    channel := LStripChar(channel, '@');
    var added := registry.Add(channel);
    if added {
      var monitored := registry.Get();
      reply := ChannelAdded(channel, monitored);
    } else {
      reply := AlreadyMonitored(channel);
    }
  }

  /** `remove_channel_handler`. */
  method RemoveChannelHandler(text: string, registry: ChannelStore.Registry) returns (reply: ChannelReply)
    modifies registry
    ensures ChannelArgument(text, RemoveChannelCommand).None? ==>
      reply == ChannelMissing && registry.channels == old(registry.channels)
    ensures ChannelArgument(text, RemoveChannelCommand).Some? ==>
      var channel := ChannelArgument(text, RemoveChannelCommand).value;
      && registry.channels == old(registry.channels) - {channel}
      && (channel !in old(registry.channels) ==> reply == NotMonitored(channel))
      && (channel in old(registry.channels) ==>
            reply.ChannelRemoved? && reply.channel == channel && Lists(reply.monitored, registry.channels))
  {
    var channel := CommandArgument(text, RemoveChannelCommand);
    if channel == [] {
      return ChannelMissing;
    }
    channel := LStripChar(channel, '@');
    var removed := registry.Remove(channel);
    if removed {
      var monitored := registry.Get();
      reply := ChannelRemoved(channel, monitored);
    } else {
      reply := NotMonitored(channel);
    }
  }

  // ---------------------------------------------------------------------------
  // `/listchannels`: which dialogs are listed, and how

  /**
   * A dialog's entity as `list_channels` probes it: `broadcast` and `megagroup` are
   * `None` when missing or `None`; the numeric id is always present.
   */
  datatype Entity = Entity(broadcast: Option<bool>, megagroup: Option<bool>, title: Attr, username: Attr, id: int)

  datatype Dialog = Dialog(entity: Option<Entity>)

  /** `getattr(ent, "broadcast", False) or getattr(ent, "megagroup", False)`. */
  predicate IsChannel(e: Entity) {
    e.broadcast == Some(true) || e.megagroup == Some(true)
  }

  /** A dialog that yields a line: it has an entity, and the entity is a channel or supergroup. */
  predicate Listed(d: Dialog) {
    d.entity.Some? && IsChannel(d.entity.value)
  }

  /** The title shown: a non-empty title, else a non-empty username, else the id. */
  function DialogTitle(e: Entity): (title: string)
    ensures title != []
    ensures AttrTruthy(e.title) ==> title == e.title.value.s
    ensures !AttrTruthy(e.title) && AttrTruthy(e.username) ==> title == e.username.value.s
    ensures !AttrTruthy(e.title) && !AttrTruthy(e.username) ==> title == IntToString(e.id)
  {
    if AttrTruthy(e.title) then e.title.value.s
    else if AttrTruthy(e.username) then e.username.value.s
    else IntToString(e.id)
  }

  /** The separator before the id, an em dash as the file stores it (UTF-8 bytes read as cp1252). */
  const IdSeparator: string := " \U{E2}\U{20AC}\U{201D} ID: "

  /** One listed line: title, then " (@username)" when there is a username, then the id. */
  function DialogLine(e: Entity): (line: string)
    ensures |line| >= |DialogTitle(e)| + |IdSeparator + IntToString(e.id)|
    ensures StartsWith(line, DialogTitle(e))
    ensures EndsWith(line, IdSeparator + IntToString(e.id))
    ensures AttrTruthy(e.username) ==>
      line[|DialogTitle(e)|..|line| - |IdSeparator + IntToString(e.id)|] == " (@" + e.username.value.s + ")"
    ensures !AttrTruthy(e.username) ==>
      |line| == |DialogTitle(e)| + |IdSeparator + IntToString(e.id)|
  {
    var title := DialogTitle(e);
    var id := IntToString(e.id);
    if AttrTruthy(e.username) then
      var handle := " (@" + e.username.value.s + ")";
      var line := title + handle + (IdSeparator + id);
      assert line == title + handle + IdSeparator + id;
      assert |line| == |title| + |handle| + |IdSeparator + id|;
      assert line[|title|..|line| - |IdSeparator + id|] == handle;
      line
    else
      assert title + IdSeparator + id == title + (IdSeparator + id);
      title + IdSeparator + id
  }

  /** The lines of the listed dialogs, in dialog order. */
  function ChannelLines(dialogs: seq<Dialog>): (lines: seq<string>)
    ensures |lines| <= |dialogs|
    decreases |dialogs|
  {
    if dialogs == [] then []
    else
      var d := dialogs[|dialogs| - 1];
      var prefix := ChannelLines(dialogs[..|dialogs| - 1]);
      if Listed(d) then prefix + [DialogLine(d.entity.value)] else prefix
  }

  /** Every listed dialog has its line in the listing. */
  lemma {:induction false} ChannelLinesComplete(dialogs: seq<Dialog>, j: int)
    requires 0 <= j < |dialogs| && Listed(dialogs[j])
    ensures DialogLine(dialogs[j].entity.value) in ChannelLines(dialogs)
    decreases |dialogs|
  {
    var init := dialogs[..|dialogs| - 1];
    if j < |dialogs| - 1 {
      assert init[j] == dialogs[j];
      ChannelLinesComplete(init, j);
    }
  }

  /** Every line of the listing is the line of a listed dialog. */
  lemma {:induction false} ChannelLinesSound(dialogs: seq<Dialog>, i: int)
    requires 0 <= i < |ChannelLines(dialogs)|
    ensures exists j :: 0 <= j < |dialogs| && Listed(dialogs[j]) && ChannelLines(dialogs)[i] == DialogLine(dialogs[j].entity.value)
    decreases |dialogs|
  {
    var init := dialogs[..|dialogs| - 1];
    var d := dialogs[|dialogs| - 1];
    var prefix := ChannelLines(init);
    if i < |prefix| {
      ChannelLinesSound(init, i);
      var j :| 0 <= j < |init| && Listed(init[j]) && prefix[i] == DialogLine(init[j].entity.value);
      assert init[j] == dialogs[j];
    } else {
      assert Listed(d) && ChannelLines(dialogs)[i] == DialogLine(d.entity.value);
    }
  }

  /** A listing with no channel dialog in it is empty ("No channels found"). */
  lemma {:induction false} NoChannelNoLines(dialogs: seq<Dialog>)
    requires forall j :: 0 <= j < |dialogs| ==> !Listed(dialogs[j])
    ensures ChannelLines(dialogs) == []
    decreases |dialogs|
  {
    if dialogs != [] {
      NoChannelNoLines(dialogs[..|dialogs| - 1]);
    }
  }

  /** The listing of two runs of dialogs is the first run's lines followed by the second's. */
  lemma {:induction false} ChannelLinesAppend(a: seq<Dialog>, b: seq<Dialog>)
    ensures ChannelLines(a + b) == ChannelLines(a) + ChannelLines(b)
    decreases |b|
  {
    if b == [] {
      assert a + b == a;
    } else {
      var init := b[..|b| - 1];
      assert (a + b)[..|a + b| - 1] == a + init;
      assert (a + b)[|a + b| - 1] == b[|b| - 1];
      ChannelLinesAppend(a, init);
    }
  }

  /** A single dialog gives exactly one line when it is listed, and none otherwise. */
  lemma ChannelLinesOne(d: Dialog)
    ensures ChannelLines([d]) == if Listed(d) then [DialogLine(d.entity.value)] else []
  {
    assert [d][..0] == [];
  }

  /** The loop of `list_channels` that appends one line per listed dialog. */
  method ListChannelLines(dialogs: seq<Dialog>) returns (channels: seq<string>)
    ensures channels == ChannelLines(dialogs)
  {
    channels := [];
    for k := 0 to |dialogs|
      invariant channels == ChannelLines(dialogs[..k])
    {
      assert dialogs[..k + 1][..k] == dialogs[..k];
      var d := dialogs[k];
      if d.entity.Some? {
        var ent := d.entity.value;
        if IsChannel(ent) {
          channels := channels + [DialogLine(ent)];
        }
      }
    }
    assert dialogs[..|dialogs|] == dialogs;
  }

  // ---------------------------------------------------------------------------
  // Chunking

  /** The budget a chunk's `current_len` is measured against. */
  const Limit: int := 3500

  /** `current_len` of a chunk: each line counts its length plus one newline. */
  function ChunkSize(chunk: seq<string>): (size: nat)
    ensures size >= |chunk|
  {
    if chunk == [] then 0 else |chunk[0]| + 1 + ChunkSize(chunk[1..])
  }

  /** The text sent for a non-empty chunk is one character shorter than its `current_len`. */
  lemma {:induction false} SentTextLength(chunk: seq<string>)
    requires chunk != []
    ensures |Join(chunk, "\n")| + 1 == ChunkSize(chunk)
    decreases |chunk|
  {
    if |chunk| > 1 {
      SentTextLength(chunk[1..]);
    }
  }

  /** Appending a line adds its length and one newline. */
  lemma {:induction false} ChunkSizeSnoc(chunk: seq<string>, line: string)
    ensures ChunkSize(chunk + [line]) == ChunkSize(chunk) + |line| + 1
    decreases |chunk|
  {
    if chunk == [] {
      assert [] + [line] == [line];
      assert [line][1..] == [];
    } else {
      assert (chunk + [line])[1..] == chunk[1..] + [line];
      ChunkSizeSnoc(chunk[1..], line);
    }
  }

  /** All chunks, one after the other. */
  function Flatten(chunks: seq<seq<string>>): seq<string> {
    if chunks == [] then [] else Flatten(chunks[..|chunks| - 1]) + chunks[|chunks| - 1]
  }

  lemma FlattenSnoc(chunks: seq<seq<string>>, chunk: seq<string>)
    ensures Flatten(chunks + [chunk]) == Flatten(chunks) + chunk
  {
    assert (chunks + [chunk])[..|chunks|] == chunks;
  }

  /** Chunk `i` was sent because the first line of chunk `i + 1` would have taken it over the budget. */
  predicate CutWhenFull(chunks: seq<seq<string>>, i: int)
    requires 0 <= i < |chunks| - 1
  {
    chunks[i + 1] != [] && ChunkSize(chunks[i]) + |chunks[i + 1][0]| + 1 > Limit
  }

  /** What holds of the chunks sent so far, whatever comes after them. */
  predicate SentSoFar(lines: seq<string>, chunks: seq<seq<string>>) {
    // only a chunk of a single line can go over the budget
    && (forall i :: 0 <= i < |chunks| && |chunks[i]| >= 2 ==> ChunkSize(chunks[i]) <= Limit)
    // an empty chunk is sent only first, when the first line alone is over the budget
    && (forall i :: 0 <= i < |chunks| && chunks[i] == [] ==> i == 0 && lines != [] && |lines[0]| + 1 > Limit)
    // a chunk is cut only when the next line would not fit
    && (forall i :: 0 <= i < |chunks| - 1 ==> CutWhenFull(chunks, i))
  }

  /** Sending one more chunk that keeps to the rules keeps them for all chunks sent. */
  lemma SentSoFarSnoc(lines: seq<string>, chunks: seq<seq<string>>, chunk: seq<string>)
    requires SentSoFar(lines, chunks)
    requires |chunk| >= 2 ==> ChunkSize(chunk) <= Limit
    requires chunk == [] ==> chunks == [] && lines != [] && |lines[0]| + 1 > Limit
    requires chunks != [] ==> chunk != [] && ChunkSize(chunks[|chunks| - 1]) + |chunk[0]| + 1 > Limit
    ensures SentSoFar(lines, chunks + [chunk])
  {
    var more := chunks + [chunk];
    forall i | 0 <= i < |more| - 1
      ensures CutWhenFull(more, i)
    {
      if i < |chunks| - 1 {
        assert CutWhenFull(chunks, i);
      }
    }
    forall i | 0 <= i < |more| && more[i] == []
      ensures i == 0 && lines != [] && |lines[0]| + 1 > Limit
    {
      if i < |chunks| {
        assert chunks[i] == [];
      }
    }
  }

  /**
   * The state of the chunking loop after `k` lines: the chunks sent so far and the chunk
   * being filled hold those lines in order, `currentLen` is the filled chunk's size, and
   * every chunk keeps to the rules.
   */
  predicate Chunking(lines: seq<string>, k: nat, chunks: seq<seq<string>>, chunk: seq<string>, currentLen: int) {
    && k <= |lines|
    && Flatten(chunks) + chunk == lines[..k]
    && currentLen == ChunkSize(chunk)
    && (|chunk| >= 2 ==> ChunkSize(chunk) <= Limit)
    && (k == 0 ==> chunks == [] && chunk == [])
    && (k > 0 ==> chunk != [])
    && SentSoFar(lines, chunks)
    && (chunks != [] ==> chunk != [] && ChunkSize(chunks[|chunks| - 1]) + |chunk[0]| + 1 > Limit)
    && (k > 0 && |lines[0]| + 1 > Limit ==> chunks != [] && chunks[0] == [])
  }

  /** The next line does not fit: the filled chunk is sent and a new one starts with the line. */
  lemma SendAndRestart(lines: seq<string>, k: nat, chunks: seq<seq<string>>, chunk: seq<string>, currentLen: int)
    requires Chunking(lines, k, chunks, chunk, currentLen) && k < |lines|
    requires currentLen + |lines[k]| + 1 > Limit
    ensures Chunking(lines, k + 1, chunks + [chunk], [lines[k]], |lines[k]| + 1)
  {
    var line := lines[k];
    var sent := chunks + [chunk];
    assert lines[..k + 1] == lines[..k] + [line];
    FlattenSnoc(chunks, chunk);
    assert ChunkSize([line]) == |line| + 1 by { assert [line][1..] == []; }
    if chunk == [] {
      // only the first line, alone over the budget, leaves an empty chunk to send
      assert k == 0 && line == lines[0];
    }
    SentSoFarSnoc(lines, chunks, chunk);
    if chunks != [] {
      assert sent[0] == chunks[0];
    }
  }

  /** The next line fits: it joins the filled chunk. */
  lemma Extend(lines: seq<string>, k: nat, chunks: seq<seq<string>>, chunk: seq<string>, currentLen: int)
    requires Chunking(lines, k, chunks, chunk, currentLen) && k < |lines|
    requires currentLen + |lines[k]| + 1 <= Limit
    ensures Chunking(lines, k + 1, chunks, chunk + [lines[k]], currentLen + |lines[k]| + 1)
  {
    var line := lines[k];
    assert lines[..k + 1] == lines[..k] + [line];
    ChunkSizeSnoc(chunk, line);
    assert Flatten(chunks) + (chunk + [line]) == (Flatten(chunks) + chunk) + [line];
    if k == 0 {
      assert line == lines[0];
    }
  }

  /** After the last line the filled chunk, when there is one, is sent too. */
  lemma SendLast(lines: seq<string>, chunks: seq<seq<string>>, chunk: seq<string>, currentLen: int)
    requires Chunking(lines, |lines|, chunks, chunk, currentLen)
    ensures var sent := if chunk != [] then chunks + [chunk] else chunks;
      && Flatten(sent) == lines
      && SentSoFar(lines, sent)
      && (sent == [] <==> lines == [])
      && (sent != [] ==> sent[|sent| - 1] != [])
      && (lines != [] && |lines[0]| + 1 > Limit ==> sent[0] == [])
  {
    assert lines[..|lines|] == lines;
    if chunk != [] {
      FlattenSnoc(chunks, chunk);
      SentSoFarSnoc(lines, chunks, chunk);
      if chunks != [] {
        assert (chunks + [chunk])[0] == chunks[0];
      }
    } else {
      assert Flatten(chunks) == lines;
    }
  }

  /**
   * The `for line in channels` loop of `list_channels`: the chunks it sends on the way,
   * and the chunk still being filled when the lines run out.
   */
  method FillChunks(lines: seq<string>) returns (chunks: seq<seq<string>>, chunk: seq<string>, currentLen: int)
    ensures Chunking(lines, |lines|, chunks, chunk, currentLen)
  {
    chunks := [];
    chunk := [];
    currentLen := 0;
    for k := 0 to |lines|
      invariant Chunking(lines, k, chunks, chunk, currentLen)
    {
      var line := lines[k];
      if currentLen + |line| + 1 > Limit {
        // the chunk is sent, emptied, and the line appended to it
        SendAndRestart(lines, k, chunks, chunk, currentLen);
        chunks := chunks + [chunk];
        chunk := [line];
        currentLen := |line| + 1;
      } else {
        Extend(lines, k, chunks, chunk, currentLen);
        chunk := chunk + [line];
        currentLen := currentLen + |line| + 1;
      }
    }
  }

  /** The chunks `list_channels` sends: those of the loop, then the last one when it is non-empty. */
  method ChunkLines(lines: seq<string>) returns (chunks: seq<seq<string>>)
    ensures Flatten(chunks) == lines
    ensures SentSoFar(lines, chunks)
    ensures chunks == [] <==> lines == []
    ensures chunks != [] ==> chunks[|chunks| - 1] != []
    ensures lines != [] && |lines[0]| + 1 > Limit ==> chunks[0] == []
  {
    var chunk, currentLen;
    chunks, chunk, currentLen := FillChunks(lines);
    SendLast(lines, chunks, chunk, currentLen);
    if chunk != [] {
      chunks := chunks + [chunk];
    }
  }

  // ---------------------------------------------------------------------------
  // `/listchannels` replies

  /** The user who sent the command, as probed for the requester label. */
  datatype User = User(username: Attr, firstName: Attr)

  /** `"@" + username` when there is one, else `getattr(user, "first_name", "You")` as an f-string shows it. */
  function Requester(user: User): (shown: string)
    ensures AttrTruthy(user.username) ==> shown == "@" + user.username.value.s
    ensures !AttrTruthy(user.username) && user.firstName.None? ==> shown == "You"
    ensures !AttrTruthy(user.username) && user.firstName.Some? ==> shown == Render(user.firstName.value)
  {
    if AttrTruthy(user.username) then "@" + user.username.value.s
    else Render(GetAttr(user.firstName, Str("You")))
  }

  datatype ListReply =
    | CredentialsMissing
    | NoChannels(requester: string)
    | Found(requester: string, count: nat)
    | ChunkText(text: string)
    | SendFailed      // "Failed to list channels": sending an empty chunk raised
    | Tip

  /** The replies of the chunks from the first: an empty chunk is refused, which ends the listing. */
  function ChunkReplies(chunks: seq<seq<string>>): (replies: seq<ListReply>)
    ensures |replies| <= |chunks|
    ensures (forall i :: 0 <= i < |chunks| ==> chunks[i] != []) ==> |replies| == |chunks|
    ensures forall i :: 0 <= i < |replies| ==> replies[i] == ChunkText(Join(chunks[i], "\n"))
    ensures forall i :: 0 <= i < |replies| ==> chunks[i] != []
    ensures |replies| == |chunks| || chunks[|replies|] == []
  {
    if chunks == [] || chunks[0] == [] then []
    else [ChunkText(Join(chunks[0], "\n"))] + ChunkReplies(chunks[1..])
  }

  /**
   * `list_channels` for an authorised session: `credentialsOk` is whether `api_id` and
   * `api_hash` are set, `dialogs` what the lookup returned.
   */
  method ListChannels(user: User, credentialsOk: bool, dialogs: seq<Dialog>) returns (replies: seq<ListReply>)
    ensures !credentialsOk ==> replies == [CredentialsMissing]
    ensures credentialsOk && ChannelLines(dialogs) == [] ==> replies == [NoChannels(Requester(user))]
    ensures credentialsOk && ChannelLines(dialogs) != [] ==>
      && |replies| >= 2
      && replies[0] == Found(Requester(user), |ChannelLines(dialogs)|)
      && (replies[|replies| - 1] == Tip || replies[|replies| - 1] == SendFailed)
      && (replies[|replies| - 1] == SendFailed <==> |ChannelLines(dialogs)[0]| + 1 > Limit)
      && (forall i :: 1 <= i < |replies| - 1 ==> replies[i].ChunkText?)
  {
    var requester := Requester(user);
    if !credentialsOk {
      return [CredentialsMissing];
    }
    var channels := ListChannelLines(dialogs);
    if channels == [] {
      return [NoChannels(requester)];
    }
    replies := [Found(requester, |channels|)];
    var chunks := ChunkLines(channels);
    if chunks[0] == [] {
      replies := replies + [SendFailed];
      assert replies[1] == SendFailed;
      return;
    }
    assert |channels[0]| + 1 <= Limit;
    var sent := ChunkReplies(chunks);
    replies := replies + sent + [Tip];
  }
}
