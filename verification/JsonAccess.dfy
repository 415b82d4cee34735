/** Looking into JSON values the way `serde_json::Value` does: a wrong shape reads as absent. */
module JsonAccess {
  import opened TaskModel

  const MAX_U64 := 0xFFFF_FFFF_FFFF_FFFF
  const MAX_I64 := 0x7FFF_FFFF_FFFF_FFFF

  function Get(value: Json, key: string): Option<Json> {
    if value.JObject? && key in value.fields then Some(value.fields[key]) else None
  }

  function AsText(value: Option<Json>): Option<string> {
    if value.Some? && value.value.JString? then Some(value.value.text) else None
  }

  function AsU64(value: Option<Json>): Option<nat> {
    if value.Some? && value.value.JNumber? && 0 <= value.value.number <= MAX_U64
    then Some(value.value.number) else None
  }

  function AsI64(value: Option<Json>): Option<int> {
    if value.Some? && value.value.JNumber? && -MAX_I64 - 1 <= value.value.number <= MAX_I64
    then Some(value.value.number) else None
  }

  function AsArray(value: Option<Json>): Option<seq<Json>> {
    if value.Some? && value.value.JArray? then Some(value.value.items) else None
  }

  function OrElse<T>(value: Option<T>, fallback: T): T {
    if value.Some? then value.value else fallback
  }
}
