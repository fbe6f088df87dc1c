// The channel adapter registry: a map from channel type to the adapter class
// that serves it, filled when adapter modules load, and the catalogue of the
// four channel types with an "available" flag saying which of them have an
// adapter registered.

module Registry {
  import opened Text

  /** An adapter class, named by its class name. */
  datatype AdapterClass = AdapterClass(name: string)

  /** One configuration field a channel type asks for. */
  datatype ConfigField = ConfigField(key: string, caption: string, fieldType: string, isRequired: bool,
                                     options: seq<string>)

  /** The metadata of one channel type, as listed to clients. */
  datatype TypeInfo = TypeInfo(id: string, caption: string, description: string,
                               configFields: seq<ConfigField>, available: bool)

  /** The channel types the catalogue lists, in listing order. */
  const TypeOrder: seq<string> := ["feishu", "slack", "discord", "web_widget"]

  /** The catalogue before the available flags are filled in. */
  const Catalogue: seq<TypeInfo> := [
    TypeInfo("feishu", "Feishu (\U{98DE}\U{4E66})",
             "Connect to Feishu/Lark via WebSocket long connection",
             [ConfigField("app_id", "App ID", "text", true, []),
              ConfigField("app_secret", "App Secret", "password", true, [])], false),
    TypeInfo("slack", "Slack", "Connect to Slack via Socket Mode",
             [ConfigField("bot_token", "Bot Token (xoxb-)", "password", true, []),
              ConfigField("app_token", "App Token (xapp-)", "password", true, [])], false),
    TypeInfo("discord", "Discord", "Connect to Discord via Gateway WebSocket",
             [ConfigField("bot_token", "Bot Token", "password", true, []),
              ConfigField("guild_id", "Guild ID (optional)", "text", false, [])], false),
    TypeInfo("web_widget", "Web Widget", "Embeddable chat widget for websites",
             [ConfigField("allowed_origins", "Allowed Origins", "text_list", false, []),
              ConfigField("widget_theme", "Theme", "select", false, ["light", "dark"]),
              ConfigField("greeting_message", "Greeting Message", "text", false, [])], false)
  ]

  /** The listing for a set of registered types: the catalogue in order, each entry marked
      available exactly when its type is registered, and nothing else changed. */
  function Listing(registered: set<string>): (r: seq<TypeInfo>)
    ensures |r| == |TypeOrder|
    ensures forall i :: 0 <= i < |r| ==> r[i].id == TypeOrder[i]
    ensures forall i :: 0 <= i < |r| ==> (r[i].available <==> TypeOrder[i] in registered)
    ensures forall i :: 0 <= i < |r| ==> r[i] == Catalogue[i].(available := r[i].available)
  {
    seq(|Catalogue|, i requires 0 <= i < |Catalogue| =>
      Catalogue[i].(available := Catalogue[i].id in registered))
  }

  /** The lookup get_adapter_class performs: the class registered for a type, if any. */
  function Lookup(adapters: map<string, AdapterClass>, channelType: string): (r: Option<AdapterClass>)
    ensures r.Some? <==> channelType in adapters
    ensures r.Some? ==> r.value == adapters[channelType]
  {
    if channelType in adapters then Some(adapters[channelType]) else None
  }

  /** After registering c for t, t looks up c and every other type looks up what it did before;
      a second registration of t replaces the first. */
  lemma LookupAfterRegister(adapters: map<string, AdapterClass>, t: string, c: AdapterClass, u: string)
    ensures Lookup(adapters[t := c], u) == if u == t then Some(c) else Lookup(adapters, u)
  {
  }

  /** Registering a type outside the catalogue does not change the listing. */
  lemma UnlistedTypeIsInvisible(registered: set<string>, t: string)
    requires t !in TypeOrder
    ensures Listing(registered + {t}) == Listing(registered)
  {
    var a := Listing(registered + {t});
    var b := Listing(registered);
    forall i | 0 <= i < |a|
      ensures a[i] == b[i]
    {
      assert TypeOrder[i] != t;
    }
  }

  /** With only the Feishu adapter registered, Feishu is the one available type. */
  lemma OnlyFeishuAvailable()
    ensures var r := Listing({"feishu"});
            r[0].available && !r[1].available && !r[2].available && !r[3].available
  {
    var r := Listing({"feishu"});
    assert r[1].id == "slack" && r[2].id == "discord" && r[3].id == "web_widget";
  }

  /** The registry of adapter classes, one per channel type. */
  class AdapterRegistry {
    var adapters: map<string, AdapterClass>

    /** The registry starts empty. */
    constructor()
      ensures adapters == map[]
    {
      adapters := map[];
    }

    /** register_adapter: records c as the class for t, replacing any earlier one. */
    method RegisterAdapter(t: string, c: AdapterClass)
      modifies this
      ensures adapters == old(adapters)[t := c]
    {
      adapters := adapters[t := c];
    }

    /** get_adapter_class: the class registered for a type, or none. */
    function GetAdapterClass(t: string): (r: Option<AdapterClass>)
      reads this
      ensures r.Some? <==> t in adapters
      ensures r.Some? ==> r.value == adapters[t]
    {
      Lookup(adapters, t)
    }

    /** list_supported_types: walks the catalogue in order, marking each type available when
        it is registered, and collects the entries. */
    method ListSupportedTypes() returns (result: seq<TypeInfo>)
      ensures result == Listing(adapters.Keys)
    {
      result := [];
      var i := 0;
      while i < |Catalogue|
        invariant 0 <= i <= |Catalogue|
        invariant result == Listing(adapters.Keys)[..i]
      {
        var info := Catalogue[i].(available := Catalogue[i].id in adapters);
        result := result + [info];
        i := i + 1;
      }
    }

    /** load_adapters: the Feishu adapter registers itself when the Lark SDK is installed;
        the other adapters are not written yet. */
    method LoadAdapters(larkInstalled: bool)
      modifies this
      ensures larkInstalled ==> adapters == old(adapters)["feishu" := AdapterClass("FeishuChannelAdapter")]
      ensures !larkInstalled ==> adapters == old(adapters)
    {
      if larkInstalled {
        RegisterAdapter("feishu", AdapterClass("FeishuChannelAdapter"));
      }
    }
  }
}
