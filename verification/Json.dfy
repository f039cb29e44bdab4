// JSON values, as the stream observer and the chart options see them.

module JsonValues {

  datatype Json =
    | Null
    | Bool(flag: bool)
    | Num(value: real)
    | Str(text: string)
    | Arr(items: seq<Json>)
    | Obj(fields: map<string, Json>)
}
