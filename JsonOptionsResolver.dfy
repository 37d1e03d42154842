/** Which JSON serializer options an implementation class uses. */
module JsonOptionsResolver {

  /**
   * A JsonSerializerOptions object, by identity: the serializer's shared default
   * instance, or one created by the application (told apart by an identifier).
   */
  datatype JsonOptions = SerializerDefault | Created(id: nat)

  /**
   * The resolver: a default and a read-only dictionary from implementation class
   * name to options. Both are fixed when it is built, so a lookup changes nothing.
   */
  datatype JsonOptionsResolver = JsonOptionsResolver(defaultJsonOptions: JsonOptions,
                                                     jsonOptionsDictionary: map<string, JsonOptions>)
  {
    /** The options registered under `key`, or the default when there are none. */
    function GetJsonOptions(key: string): (r: JsonOptions)
      ensures key in jsonOptionsDictionary ==> r == jsonOptionsDictionary[key]
      ensures key !in jsonOptionsDictionary ==> r == defaultJsonOptions
    {
      if key in jsonOptionsDictionary then jsonOptionsDictionary[key] else defaultJsonOptions
    }
  }

  /** `new JsonOptionsResolver()`: the serializer's default and an empty dictionary. */
  function Create(): (r: JsonOptionsResolver)
    ensures r.defaultJsonOptions == SerializerDefault && r.jsonOptionsDictionary == map[]
  {
    JsonOptionsResolver(SerializerDefault, map[])
  }

  /** `new JsonOptionsResolver(defaultJsonOptions)`: the given default and an empty dictionary. */
  function CreateWithDefault(defaultJsonOptions: JsonOptions): (r: JsonOptionsResolver)
    ensures r.defaultJsonOptions == defaultJsonOptions && r.jsonOptionsDictionary == map[]
  {
    CreateWithBoth(defaultJsonOptions, map[])
  }

  /**
   * `new JsonOptionsResolver(jsonOptionsDictionary)`: the dictionary, and as default
   * the options object `created` that the constructor makes with `new JsonSerializerOptions()`.
   */
  function CreateWithDictionary(jsonOptionsDictionary: map<string, JsonOptions>, created: nat): (r: JsonOptionsResolver)
    ensures r.defaultJsonOptions == Created(created) && r.jsonOptionsDictionary == jsonOptionsDictionary
  {
    CreateWithBoth(Created(created), jsonOptionsDictionary)
  }

  /** `new JsonOptionsResolver(defaultJsonOptions, jsonOptionsDictionary)`. */
  function CreateWithBoth(defaultJsonOptions: JsonOptions, jsonOptionsDictionary: map<string, JsonOptions>): (r: JsonOptionsResolver)
    ensures r.defaultJsonOptions == defaultJsonOptions && r.jsonOptionsDictionary == jsonOptionsDictionary
  {
    JsonOptionsResolver(defaultJsonOptions, jsonOptionsDictionary)
  }

  /** A resolver built without a dictionary answers every key with its default. */
  lemma EmptyDictionaryGivesDefault(defaultJsonOptions: JsonOptions, key: string)
    ensures Create().GetJsonOptions(key) == SerializerDefault
    ensures CreateWithDefault(defaultJsonOptions).GetJsonOptions(key) == defaultJsonOptions
  {
  }

  /**
   * Every answer is either an entry of the dictionary or the default, and an answer
   * that differs from the default comes from the dictionary entry of that key.
   */
  lemma GetJsonOptionsSource(resolver: JsonOptionsResolver, key: string)
    ensures var r := resolver.GetJsonOptions(key);
            r == resolver.defaultJsonOptions || r in resolver.jsonOptionsDictionary.Values
    ensures resolver.GetJsonOptions(key) != resolver.defaultJsonOptions ==>
              key in resolver.jsonOptionsDictionary
              && resolver.jsonOptionsDictionary[key] == resolver.GetJsonOptions(key)
  {
  }
}
