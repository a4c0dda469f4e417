/**
 * The `zk config list` command (internal/cli/cmd/config.go): listing the
 * configured command aliases as `key=value` items between a header and a
 * footer, with the JSON output formats fixing those three strings.
 *
 * Expanding the `\n` and `\t` literals of the options is a collaborator,
 * passed in as `expand`; the pager is reduced to the text handed to it and
 * the error it reports.
 */
module AliasConfig {
  import opened Wrappers

  const HeaderConflict: string := "--header can't be used with JSON format"
  const FooterConflict: string := "--footer can't be used with JSON format"
  const DelimiterConflict: string := "--delimiter can't be used with JSON format"

  /** The predefined item templates. */
  const JsonTemplate: string := "{{json .}}"
  const NameTemplate: string := "{{name}}"
  const FullTemplate: string := "{{name}} ({{note-count}})"

  predicate IsJsonFormat(format: string)
  {
    format == "json" || format == "jsonl"
  }

  /** A JSON format with a header, or with a footer or delimiter other than a newline, is refused. */
  predicate Conflicting(format: string, header: string, footer: string, delimiter: string)
  {
    IsJsonFormat(format) && (header != "" || footer != "\n" || delimiter != "\n")
  }

  /** `fmt.Sprintf("%s=%s", key, value)`. */
  function AliasLine(alias: (string, string)): string
  {
    alias.0 + "=" + alias.1
  }

  /** One `key=value` item per alias, in the enumeration order. */
  function AliasLines(aliases: seq<(string, string)>): seq<string>
  {
    seq(|aliases|, i requires 0 <= i < |aliases| => AliasLine(aliases[i]))
  }

  /** The items with `sep` between each two consecutive ones, and nowhere else. */
  function JoinWith(sep: string, items: seq<string>): string
  {
    if items == [] then ""
    else if |items| == 1 then items[0]
    else items[0] + sep + JoinWith(sep, items[1..])
  }

  /** Joining two non-empty runs of items puts exactly one separator between them. */
  lemma {:induction false} JoinAppend(sep: string, xs: seq<string>, ys: seq<string>)
    requires xs != [] && ys != []
    ensures JoinWith(sep, xs + ys) == JoinWith(sep, xs) + sep + JoinWith(sep, ys)
  {
    if |xs| == 1 {
      assert (xs + ys)[1..] == ys;
    } else {
      assert (xs + ys)[1..] == xs[1..] + ys;
      JoinAppend(sep, xs[1..], ys);
    }
  }

  /** Adding one item to a join appends the separator (unless it is the first item) and the item. */
  lemma JoinSnoc(sep: string, items: seq<string>, item: string)
    ensures JoinWith(sep, items + [item]) == if items == [] then item else JoinWith(sep, items) + sep + item
  {
    if items != [] {
      JoinAppend(sep, items, [item]);
    }
  }

  lemma AliasLinesSnoc(aliases: seq<(string, string)>, i: nat)
    requires i < |aliases|
    ensures AliasLines(aliases[..i + 1]) == AliasLines(aliases[..i]) + [AliasLine(aliases[i])]
  {
  }

  /** The summed length of the items. */
  function TotalLength(items: seq<string>): nat
  {
    if items == [] then 0 else |items[0]| + TotalLength(items[1..])
  }

  /** A join of n items is as long as the items together plus n - 1 separators. */
  lemma {:induction false} JoinLength(sep: string, items: seq<string>)
    requires items != []
    ensures |JoinWith(sep, items)| == TotalLength(items) + (|items| - 1) * |sep|
  {
    if |items| > 1 {
      JoinLength(sep, items[1..]);
      assert (|items| - 1) * |sep| == (|items| - 2) * |sep| + |sep|;
    }
  }

  /** `AliasList`: the options of `zk config list`. */
  class AliasList {
    var format: string
    var header: string
    var footer: string
    var delimiter: string
    var noPager: bool
    var quiet: bool

    constructor (format: string, header: string, footer: string, delimiter: string, noPager: bool, quiet: bool)
      ensures this.format == format && this.header == header && this.footer == footer
      ensures this.delimiter == delimiter && this.noPager == noPager && this.quiet == quiet
    {
      this.format := format;
      this.header := header;
      this.footer := footer;
      this.delimiter := delimiter;
      this.noPager := noPager;
      this.quiet := quiet;
    }

    /**
     * The text written to the pager: the header, the `key=value` items with
     * the delimiter between them, then the footer. An empty header or footer
     * is simply not written.
     */
    method WriteAliases(aliases: seq<(string, string)>) returns (out: string)
      ensures out == header + JoinWith(delimiter, AliasLines(aliases)) + footer
    {
      out := "";
      if header != "" {
        out := out + header;
      }
      var i := 0;
      while i < |aliases|
        invariant 0 <= i <= |aliases|
        invariant out == header + JoinWith(delimiter, AliasLines(aliases[..i]))
      {
        AliasLinesSnoc(aliases, i);
        JoinSnoc(delimiter, AliasLines(aliases[..i]), AliasLine(aliases[i]));
        if i > 0 {
          out := out + delimiter;
        }
        out := out + AliasLine(aliases[i]);
        i := i + 1;
      }
      assert aliases[..i] == aliases;
      if footer != "" {
        out := out + footer;
      }
    }

    /**
     * What `Run` reports once the options are settled: with aliases, the
     * listing and the pager's result; without, no listing, no error and,
     * unless quiet, the "Found 0 aliases" notice.
     */
    ghost predicate Reported(aliases: seq<(string, string)>, pagerError: Option<string>,
                             err: Option<string>, listing: Option<string>, notice: Option<nat>)
      reads this
    {
      if |aliases| > 0 then
        err == pagerError && notice == None
        && listing == Some(header + JoinWith(delimiter, AliasLines(aliases)) + footer)
      else
        err == None && listing == None && notice == (if quiet then None else Some(|aliases|))
    }

    /**
     * `AliasList.Run`: expand the header, footer and delimiter in place,
     * refuse custom ones with a JSON format, fix them for that format, then
     * list the aliases, which arrive in the order the map yields them.
     */
    method Run(aliases: seq<(string, string)>, expand: string -> string, pagerError: Option<string>)
      returns (err: Option<string>, listing: Option<string>, notice: Option<nat>)
      modifies this
      ensures format == old(format) && noPager == old(noPager) && quiet == old(quiet)
      ensures var h, f, d := expand(old(header)), expand(old(footer)), expand(old(delimiter));
        && (IsJsonFormat(format) && h != "" ==> err == Some(HeaderConflict))
        && (IsJsonFormat(format) && h == "" && f != "\n" ==> err == Some(FooterConflict))
        && (IsJsonFormat(format) && h == "" && f == "\n" && d != "\n" ==> err == Some(DelimiterConflict))
        && (Conflicting(format, h, f, d) ==>
              header == h && footer == f && delimiter == d && listing == None && notice == None)
        && (!Conflicting(format, h, f, d) ==> Reported(aliases, pagerError, err, listing, notice))
        && (format == "json" && !Conflicting(format, h, f, d) ==>
              header == "[" && footer == "]\n" && delimiter == ",")
        && (format == "jsonl" && !Conflicting(format, h, f, d) ==>
              header == "" && footer == "\n" && delimiter == "\n")
        && (!IsJsonFormat(format) ==> header == h && footer == f && delimiter == d)
    {
      header := expand(header);
      footer := expand(footer);
      delimiter := expand(delimiter);
      listing, notice := None, None;

      if format == "json" || format == "jsonl" {
        if header != "" {
          err := Some(HeaderConflict);
          return;
        }
        if footer != "\n" {
          err := Some(FooterConflict);
          return;
        }
        if delimiter != "\n" {
          err := Some(DelimiterConflict);
          return;
        }
        if format == "json" {
          delimiter := ",";
          header := "[";
          footer := "]\n";
        } else {
          footer := "\n";
        }
      }

      var count := |aliases|;
      if count > 0 {
        var out := WriteAliases(aliases);
        listing := Some(out);
        err := pagerError;
        return;
      }
      if !quiet {
        notice := Some(count);
      }
      err := None;
    }

    /**
     * `aliasTemplate`: the item template for the format; an empty format
     * means `full`, and a format that names no predefined template is a
     * template itself, with its whitespace literals expanded.
     */
    function AliasTemplate(expand: string -> string): (t: string)
      reads this
      ensures format == "" || format == "full" ==> t == FullTemplate
      ensures IsJsonFormat(format) ==> t == JsonTemplate
      ensures format == "name" ==> t == NameTemplate
      ensures format !in {"", "full", "json", "jsonl", "name"} ==> t == expand(format)
    {
      var name := if format == "" then "full" else format;
      var templates := map["json" := JsonTemplate, "jsonl" := JsonTemplate, "name" := NameTemplate, "full" := FullTemplate];
      if name in templates then templates[name] else expand(name)
    }
  }
}
