/** lib/JsonDataGenerator.js: the request data processor that sends JSON. */
module JsonData {
  import opened JsValues

  /**
   * `jsonDataGenerator(method, data, headers)`: sets the caller's
   * 'Content-Type' header to 'application/json' in place, leaves every other
   * header as it was, and returns `JSON.stringify(data)`, whatever the method.
   */
  method JsonDataGenerator(verb: string, data: JsValue, headers: Dict, stringify: JsValue -> string)
    returns (body: string)
    modifies headers
    ensures headers.entries == old(headers.entries)["Content-Type" := Str("application/json")]
    ensures body == stringify(data)
  {
    headers.entries := headers.entries["Content-Type" := Str("application/json")];
    body := stringify(data);
  }
}
