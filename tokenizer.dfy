/**
 * Token counting for chat requests (backend/internal/tokenizer/tokenizer.go).
 * The tiktoken encoder is abstract: `count(text)` stands for
 * `len(enc.Encode(text, nil, nil))`. Messages are decoded JSON values.
 */
module Tokenizer {
  import opened Wrappers
  import opened Text
  import opened Json

  const Cl100k := "cl100k_base"

  /** modelEncodingMap, in source order; every entry names cl100k_base. */
  const ModelEncodings: seq<(string, string)> := [
    ("claude", Cl100k), ("claude-3", Cl100k), ("claude-opus", Cl100k), ("claude-sonnet", Cl100k),
    ("claude-haiku", Cl100k), ("gpt-4", Cl100k), ("gpt-4o", Cl100k), ("gpt-4-turbo", Cl100k),
    ("gpt-3.5", Cl100k), ("gpt-35", Cl100k), ("default", Cl100k)]

  /**
   * getEncodingForModel over the map's entries in `entries` order (Go visits a
   * map in an unspecified order): the first entry whose key occurs in the
   * lower-cased name, else the "default" entry.
   */
  function EncodingFor(entries: seq<(string, string)>, modelName: string): string
    decreases |entries|
  {
    if entries == [] then DefaultEncoding(ModelEncodings)
    else if Contains(ToLower(modelName), entries[0].0) then entries[0].1
    else EncodingFor(entries[1..], modelName)
  }

  /** `modelEncodingMap["default"]`. */
  function DefaultEncoding(entries: seq<(string, string)>): string
    decreases |entries|
  {
    if entries == [] then "" else if entries[0].0 == "default" then entries[0].1 else DefaultEncoding(entries[1..])
  }

  /**
   * Every model uses cl100k_base, whatever order the map is visited in: the
   * entries may be any arrangement of the table's (any selection, even).
   */
  lemma {:induction false} EncodingAlwaysCl100k(entries: seq<(string, string)>, modelName: string)
    requires forall i :: 0 <= i < |entries| ==> entries[i] in ModelEncodings
    ensures EncodingFor(entries, modelName) == Cl100k
  {
    forall i | 0 <= i < |entries|
      ensures entries[i].1 == Cl100k
    {
      var j :| 0 <= j < |ModelEncodings| && ModelEncodings[j] == entries[i];
      TableNamesCl100k(j);
    }
    EncodingOfUniform(entries, modelName);
  }

  /** Each entry of the table names cl100k_base. */
  lemma TableNamesCl100k(j: int)
    requires 0 <= j < |ModelEncodings|
    ensures ModelEncodings[j].1 == Cl100k
  {
  }

  lemma {:induction false} EncodingOfUniform(entries: seq<(string, string)>, modelName: string)
    requires forall i :: 0 <= i < |entries| ==> entries[i].1 == Cl100k
    ensures EncodingFor(entries, modelName) == Cl100k
    decreases |entries|
  {
    if entries == [] {
      assert ModelEncodings[..10] + [("default", Cl100k)] == ModelEncodings;
      DefaultOfTable();
    } else if !Contains(ToLower(modelName), entries[0].0) {
      EncodingOfUniform(entries[1..], modelName);
    }
  }

  lemma DefaultOfTable()
    ensures DefaultEncoding(ModelEncodings) == Cl100k
  {
    var t := ModelEncodings;
    assert t == t[..10] + [("default", Cl100k)];
    forall i | 0 <= i < 10 ensures t[..10][i].0 != "default" {
      assert |t[i].0| != 7 || t[i].0[6] != 't';
    }
    DefaultAfter(t[..10], Cl100k);
  }

  /** The "default" entry is found past any entries with other keys. */
  lemma {:induction false} DefaultAfter(front: seq<(string, string)>, enc: string)
    requires forall i :: 0 <= i < |front| ==> front[i].0 != "default"
    ensures DefaultEncoding(front + [("default", enc)]) == enc
    decreases |front|
  {
    if front != [] {
      assert (front + [("default", enc)])[1..] == front[1..] + [("default", enc)];
      DefaultAfter(front[1..], enc);
    }
  }

  // ---------------------------------------------------------------------------
  // Counting

  /** What one content item adds: its text, or 85 for an image. */
  function ItemTokens(item: Json, count: string -> nat): (n: nat)
    ensures !item.Obj? ==> n == 0
  {
    if !item.Obj? then 0
    else
      var f := item.fields;
      var kind := StringField(f, "type");
      (if kind == Some("text") && StringField(f, "text").Some? then count(StringField(f, "text").value) else 0) +
      (if kind == Some("image_url") then 85 else 0)
  }

  /** The items of an array content, summed. */
  function ItemsTokens(items: seq<Json>, count: string -> nat): nat
    decreases |items|
  {
    if items == [] then 0 else ItemsTokens(items[..|items| - 1], count) + ItemTokens(items[|items| - 1], count)
  }

  /** What a message's `content` adds: a string is encoded, an array is summed, anything else adds nothing. */
  function ContentTokens(fields: map<string, Json>, count: string -> nat): nat {
    if "content" in fields && fields["content"].Str? then count(fields["content"].s)
    else if "content" in fields && fields["content"].Arr? then ItemsTokens(fields["content"].items, count)
    else 0
  }

  /** One message: 3 of overhead, its role, its content, its name plus 1; a non-object adds nothing. */
  function MessageTokens(message: Json, count: string -> nat): (n: nat)
    ensures !message.Obj? ==> n == 0
    ensures message.Obj? ==> n >= 3
  {
    if !message.Obj? then 0
    else
      var f := message.fields;
      3 + (if StringField(f, "role").Some? then count(StringField(f, "role").value) else 0)
        + ContentTokens(f, count)
        + (if StringField(f, "name").Some? then count(StringField(f, "name").value) + 1 else 0)
  }

  function MessagesSum(messages: seq<Json>, count: string -> nat): (n: nat)
    ensures (forall i :: 0 <= i < |messages| ==> messages[i].Obj?) ==> n >= 3 * |messages|
    decreases |messages|
  {
    if messages == [] then 0
    else MessagesSum(messages[..|messages| - 1], count) + MessageTokens(messages[|messages| - 1], count)
  }

  /** The request total: the messages plus 3 for the request itself. */
  function MessagesTokens(messages: seq<Json>, count: string -> nat): (n: nat)
    ensures n >= 3
    ensures messages == [] ==> n == 3
    ensures (forall i :: 0 <= i < |messages| ==> messages[i].Obj?) ==> n >= 3 + 3 * |messages|
  {
    MessagesSum(messages, count) + 3
  }

  /** CountMessagesTokens with a working encoder: the nested accumulation loops. */
  method CountMessagesTokens(messages: seq<Json>, count: string -> nat) returns (total: int)
    ensures total == MessagesTokens(messages, count)
  {
    total := 0;
    var i := 0;
    while i < |messages|
      invariant 0 <= i <= |messages|
      invariant total == MessagesSum(messages[..i], count)
    {
      assert messages[..i + 1][..i] == messages[..i];
      var msg := messages[i];
      if msg.Obj? {
        var m := msg.fields;
        total := total + 3;
        var role := StringField(m, "role");
        if role.Some? {
          total := total + count(role.value);
        }
        if "content" in m && m["content"].Str? {
          total := total + count(m["content"].s);
        } else if "content" in m && m["content"].Arr? {
          var items := m["content"].items;
          var j := 0;
          var before := total;
          while j < |items|
            invariant 0 <= j <= |items|
            invariant total == before + ItemsTokens(items[..j], count)
          {
            assert items[..j + 1][..j] == items[..j];
            var item := items[j];
            if item.Obj? {
              var kind := StringField(item.fields, "type");
              if kind == Some("text") {
                var text := StringField(item.fields, "text");
                if text.Some? {
                  total := total + count(text.value);
                }
              }
              if kind == Some("image_url") {
                total := total + 85;
              }
            }
            j := j + 1;
          }
          assert items[..j] == items;
        }
        var name := StringField(m, "name");
        if name.Some? {
          total := total + count(name.value);
          total := total + 1;
        }
      }
      i := i + 1;
    }
    assert messages[..i] == messages;
    total := total + 3;
  }

  /** An empty conversation costs the 3 tokens of the request alone. */
  lemma EmptyConversation(count: string -> nat)
    ensures MessagesTokens([], count) == 3
  {
  }

  /** Appending a message adds exactly that message's tokens. */
  lemma AppendMessage(messages: seq<Json>, message: Json, count: string -> nat)
    ensures MessagesTokens(messages + [message], count) == MessagesTokens(messages, count) + MessageTokens(message, count)
  {
    assert (messages + [message])[..|messages|] == messages;
  }

  /** Values that are not objects add nothing to the count. */
  lemma NonObjectsIgnored(messages: seq<Json>, junk: Json, count: string -> nat)
    requires !junk.Obj?
    ensures MessagesTokens(messages + [junk], count) == MessagesTokens(messages, count)
  {
    AppendMessage(messages, junk, count);
  }

  /** How many messages are objects. */
  function ObjectCount(messages: seq<Json>): nat
    decreases |messages|
  {
    if messages == [] then 0
    else ObjectCount(messages[..|messages| - 1]) + (if messages[|messages| - 1].Obj? then 1 else 0)
  }

  /** Whatever the encoder says, each object message costs at least its 3 of overhead. */
  lemma {:induction false} OverheadLowerBound(messages: seq<Json>, count: string -> nat)
    ensures MessagesTokens(messages, count) >= 3 + 3 * ObjectCount(messages)
    decreases |messages|
  {
    if messages != [] {
      OverheadLowerBound(messages[..|messages| - 1], count);
    }
  }

  /** A plain text message costs 3 + its role + its content. */
  lemma PlainMessage(role: string, content: string, count: string -> nat)
    ensures MessageTokens(Obj(map["role" := Str(role), "content" := Str(content)]), count) ==
      3 + count(role) + count(content)
  {
    var f := map["role" := Str(role), "content" := Str(content)];
    assert "name" !in f;
  }

  /** A string `name` adds its own tokens plus one to the message that carries it. */
  lemma NameAddsOne(fields: map<string, Json>, name: string, count: string -> nat)
    requires "name" !in fields
    ensures MessageTokens(Obj(fields["name" := Str(name)]), count) == MessageTokens(Obj(fields), count) + count(name) + 1
  {
    var g := fields["name" := Str(name)];
    assert StringField(g, "role") == StringField(fields, "role");
    assert ContentTokens(g, count) == ContentTokens(fields, count);
  }

  /** A text item costs its text's tokens, whatever else it carries. */
  lemma TextItem(fields: map<string, Json>, text: string, count: string -> nat)
    requires "type" in fields && fields["type"] == Str("text")
    requires "text" in fields && fields["text"] == Str(text)
    ensures ItemTokens(Obj(fields), count) == count(text)
  {
  }

  /** An image item costs 85 whatever else it carries. */
  lemma ImageItem(fields: map<string, Json>, count: string -> nat)
    requires "type" in fields && fields["type"] == Str("image_url")
    ensures ItemTokens(Obj(fields), count) == 85
  {
  }

  // ---------------------------------------------------------------------------
  // The encoder cache

  /** A loaded encoder, known by its encoding name. */
  datatype Encoder = Encoder(encoding: string)

  /** encoderCache: encoders are loaded once per encoding name and kept. */
  class EncoderCache {
    var cache: map<string, Encoder>

    constructor ()
      ensures cache == map[]
    {
      cache := map[];
    }

    /**
     * getEncoder: the cached encoder if there is one; otherwise `loaded` (the
     * outcome of tiktoken.GetEncoding), stored only when it succeeded. The
     * step itself is `Lookup`; this is its update of the shared cache.
     */
    method GetEncoder(name: string, loaded: Result<Encoder, string>) returns (r: Result<Encoder, string>)
      modifies this
      ensures (r, cache) == Lookup(old(cache), name, loaded)
    {
      var step := Lookup(cache, name, loaded);
      r := step.0;
      cache := step.1;
    }
  }

  /**
   * The get-or-load step: a cached encoder is answered without looking at
   * the load; a miss answers the load's outcome and keeps it only on success.
   */
  function Lookup(cache: map<string, Encoder>, name: string, loaded: Result<Encoder, string>):
    (r: (Result<Encoder, string>, map<string, Encoder>))
    ensures name in cache ==> r == (Ok(cache[name]), cache)
    ensures name !in cache ==> r.0 == loaded
    ensures r.0.Ok? ==> name in r.1 && r.1[name] == r.0.value
    ensures forall k :: k in cache ==> k in r.1 && r.1[k] == cache[k]
    ensures forall k :: k in r.1 && k !in cache ==> k == name && r.0.Ok?
  {
    if name in cache then (Ok(cache[name]), cache)
    else if loaded.Err? then (loaded, cache)
    else (loaded, cache[name := loaded.value])
  }

  /** A second lookup of the same name returns the first one's encoder and loads nothing. */
  lemma SecondLookupCached(cache: map<string, Encoder>, name: string, first: Result<Encoder, string>,
                           second: Result<Encoder, string>)
    requires Lookup(cache, name, first).0.Ok?
    ensures var c1 := Lookup(cache, name, first).1;
      Lookup(c1, name, second) == (Lookup(cache, name, first).0, c1)
  {
  }
}
