/**
 * The stand-alone monitor of telegram_monitor_simple.py: channels are tracked by
 * numeric id, a relevant message is displayed and forwarded to the logged-in
 * user's own account. Its relevance processor is the same code as ai.py's and is
 * modelled once, as `Relevance.Processor`. Name lookups (`get_entity`) are a map
 * from names to ids; a name missing from it is a lookup that raised.
 */
module SimpleMonitor {
  import opened Text
  import Relevance
  import Monitor

  /** A step of the handler that leaves the handler. */
  datatype Call =
    | CheckRelevance(text: string, query: string)        // `is_message_relevant(message_text, USER_PROMPT)`
    | ProcessNewMessage(messageId: int)                  // `process_new_message(message, chat)`
    | ForwardToSelf(messageId: int, chatName: Value)     // `forward_message_to_self(message, chat_name)`

  /** `channel_username[1:]` when it starts with '@': exactly one '@' goes. */
  function DropAt(name: string): (bare: string)
    ensures StartsWith(name, "@") ==> "@" + bare == name
    ensures !StartsWith(name, "@") ==> bare == name
  {
    if StartsWith(name, "@") then
      assert name == name[..1] + name[1..];
      name[1..]
    else name
  }

  /** Unlike the bot's `lstrip("@")`, a doubled '@' keeps its second one. */
  lemma DropAtRemovesOnlyOne(name: string)
    ensures DropAt("@@" + name) == "@" + name
  {
    assert ("@@" + name)[..1] == "@";
    assert ("@@" + name)[1..] == "@" + name;
  }

  /** The names of `names` whose lookup succeeds, in order. */
  function Resolvable(names: seq<string>, directory: map<string, int>): (found: seq<string>)
    ensures |found| <= |names|
    ensures forall i :: 0 <= i < |found| ==> found[i] in names && DropAt(found[i]) in directory
    ensures forall i :: 0 <= i < |names| && DropAt(names[i]) in directory ==> names[i] in found
    decreases |names|
  {
    if names == [] then []
    else
      var init := names[..|names| - 1];
      var last := names[|names| - 1];
      var found := Resolvable(init, directory);
      assert forall i :: 0 <= i < |init| ==> init[i] == names[i];
      if DropAt(last) in directory then found + [last] else found
  }

  /** Filtering a list is filtering its two halves, one after the other: the order of the names is kept. */
  lemma {:induction false} ResolvableAppend(a: seq<string>, b: seq<string>, directory: map<string, int>)
    ensures Resolvable(a + b, directory) == Resolvable(a, directory) + Resolvable(b, directory)
    decreases |b|
  {
    if b == [] {
      assert a + b == a;
    } else {
      var init := b[..|b| - 1];
      assert (a + b)[..|a + b| - 1] == a + init;
      assert (a + b)[|a + b| - 1] == b[|b| - 1];
      ResolvableAppend(a, init, directory);
    }
  }

  /** A single name is kept, once, exactly when its lookup succeeds. */
  lemma ResolvableOne(name: string, directory: map<string, int>)
    ensures Resolvable([name], directory) == if DropAt(name) in directory then [name] else []
  {
    assert [name][..0] == [];
  }

  /** The ids the resolvable names among `names` stand for. */
  ghost function Ids(names: seq<string>, directory: map<string, int>): set<int> {
    set i | 0 <= i < |names| && DropAt(names[i]) in directory :: directory[DropAt(names[i])]
  }

  lemma IdsSnoc(names: seq<string>, name: string, directory: map<string, int>)
    ensures Ids(names + [name], directory) ==
      Ids(names, directory) + (if DropAt(name) in directory then {directory[DropAt(name)]} else {})
  {
    var more := names + [name];
    forall id | id in Ids(more, directory)
      ensures id in Ids(names, directory) + (if DropAt(name) in directory then {directory[DropAt(name)]} else {})
    {
      var i :| 0 <= i < |more| && DropAt(more[i]) in directory && id == directory[DropAt(more[i])];
      if i < |names| {
        assert more[i] == names[i];
      }
    }
    forall id | id in Ids(names, directory)
      ensures id in Ids(more, directory)
    {
      var i :| 0 <= i < |names| && DropAt(names[i]) in directory && id == directory[DropAt(names[i])];
      assert more[i] == names[i];
    }
    if DropAt(name) in directory {
      assert more[|names|] == name;
    }
  }

  class TelegramChannelMonitor {
    /** `monitored_channels`: the ids of the channels being watched. */
    var monitored: set<int>
    /** `user_entity`: the id of the logged-in user, once `start` has run. */
    var userEntity: Option<int>
    const processor: Relevance.Processor
    /** `USER_PROMPT`, fixed when the module is loaded. */
    const userPrompt: string

    constructor (processor: Relevance.Processor, userPrompt: string)
      ensures monitored == {} && userEntity == None
      ensures this.processor == processor && this.userPrompt == userPrompt
    {
      monitored := {};
      userEntity := None;
      this.processor := processor;
      this.userPrompt := userPrompt;
    }

    /** What `start` keeps once logged in: the user to forward to. */
    method Start(me: int)
      modifies this
      ensures userEntity == Some(me) && monitored == old(monitored)
    {
      userEntity := Some(me);
    }

    /**
     * `forward_message_to_self`: no user, no forward; otherwise it succeeds exactly
     * when the forward call (`forwardOk`) did not raise.
     */
    function ForwardMessageToSelf(forwardOk: bool): (forwarded: bool)
      reads this
      ensures userEntity.None? ==> !forwarded
      ensures forwarded <==> userEntity.Some? && forwardOk
    {
      if userEntity.None? then false else forwardOk
    }

    /**
     * `add_channel_to_monitor`: one leading '@' dropped, then the lookup; on success its id
     * joins the set, on failure nothing changes.
     */
    method AddChannelToMonitor(channelUsername: string, directory: map<string, int>) returns (ok: bool)
      modifies this
      ensures ok <==> DropAt(channelUsername) in directory
      ensures ok ==> monitored == old(monitored) + {directory[DropAt(channelUsername)]}
      ensures !ok ==> monitored == old(monitored)
      ensures userEntity == old(userEntity)
    {
      var name := channelUsername;
      if StartsWith(name, "@") {
        name := name[1..];
      }
      if name !in directory {
        return false;
      }
      monitored := monitored + {directory[name]};
      return true;
    }

    /** `add_channels_to_monitor`: the names whose add succeeded, in input order. */
    method AddChannelsToMonitor(channelList: seq<string>, directory: map<string, int>)
      returns (addedChannels: seq<string>)
      modifies this
      ensures addedChannels == Resolvable(channelList, directory)
      ensures monitored == old(monitored) + Ids(channelList, directory)
      ensures userEntity == old(userEntity)
    {
      addedChannels := [];
      for k := 0 to |channelList|
        invariant addedChannels == Resolvable(channelList[..k], directory)
        invariant monitored == old(monitored) + Ids(channelList[..k], directory)
        invariant userEntity == old(userEntity)
      {
        var channel := channelList[k];
        assert channelList[..k + 1] == channelList[..k] + [channel];
        assert channelList[..k + 1][..k] == channelList[..k];
        IdsSnoc(channelList[..k], channel, directory);
        var ok := AddChannelToMonitor(channel, directory);
        if ok {
          addedChannels := addedChannels + [channel];
        }
      }
      assert channelList[..|channelList|] == channelList;
    }

    /**
     * One new-message event: only a chat whose id is monitored is checked; a relevant
     * message is displayed and then forwarded, once each. `reply` is the model's reply
     * (`None` when the call raised); `forwardOk` whether the forward call succeeded.
     */
    method HandleMessage(chat: Monitor.Chat, message: Monitor.Message, reply: Option<string>, forwardOk: bool)
      returns (calls: seq<Call>, forwarded: bool)
      ensures !(chat.id.Some? && chat.id.value in monitored) ==> calls == [] && !forwarded
      ensures chat.id.Some? && chat.id.value in monitored ==>
        |calls| >= 1 && calls[0] == CheckRelevance(Monitor.TextForCheck(message.text), userPrompt)
      ensures chat.id.Some? && chat.id.value in monitored && processor.IsMessageRelevant(reply) ==>
        calls[1..] == [ProcessNewMessage(message.id), ForwardToSelf(message.id, Monitor.ChatName(chat))]
      ensures chat.id.Some? && chat.id.value in monitored && !processor.IsMessageRelevant(reply) ==>
        calls[1..] == []
      ensures forwarded <==>
        chat.id.Some? && chat.id.value in monitored && processor.IsMessageRelevant(reply)
        && userEntity.Some? && forwardOk
    {
      calls := [];
      forwarded := false;
      var chatName := Monitor.ChatName(chat);
      if chat.id.Some? && chat.id.value in monitored {
        var messageText := OrDefault(message.text, "");
        if messageText == "" {
          messageText := Monitor.NonTextSentinel;
        }
        calls := calls + [CheckRelevance(messageText, userPrompt)];
        var isRelevant := processor.IsMessageRelevant(reply);
        if isRelevant {
          calls := calls + [ProcessNewMessage(message.id)];
          calls := calls + [ForwardToSelf(message.id, chatName)];
          forwarded := ForwardMessageToSelf(forwardOk);
        }
      }
    }
  }

  /** Adding the same list twice adds nothing new the second time, and reports the same names. */
  method AddListTwice(m: TelegramChannelMonitor, channelList: seq<string>, directory: map<string, int>)
    returns (first: seq<string>, second: seq<string>)
    modifies m
    ensures first == second
    ensures m.monitored == old(m.monitored) + Ids(channelList, directory)
  {
    first := m.AddChannelsToMonitor(channelList, directory);
    second := m.AddChannelsToMonitor(channelList, directory);
  }
}
