/**
 * The values the crawler passes around in configuration sections, in the
 * `options` dictionary and in parsed container labels: the scalars and
 * dictionaries of JSON and of the INI configuration file.
 */
module Values {

  datatype Value =
    | Bool(b: bool)
    | Int(i: int)
    | Str(s: string)
    | Dict(entries: map<string, Value>)
}
