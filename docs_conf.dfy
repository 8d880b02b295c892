// skip_member_if of docs/source/conf.py: the autoapi-skip-member handler that
// hides members from the generated API docs. It answers True to skip a member
// and None to leave the decision to autoapi, and never answers False.

module DocsConf {
  import opened Strings
  import opened Values

  const SkipMarker: string := "autoapiskip:"

  /** The rules that look at the member's dotted name only. */
  predicate SkippedByName(name: string)
  {
    || name == "bin"
    || EndsWith(name, ".logger")
    || (StartsWith(name, "commands") && EndsWith(name, ".parse_args"))
    || (StartsWith(name, "bin") && EndsWith(name, ".main"))
  }

  /**
   * skip_member_if(app, what, name, obj, skip, options). docstring is obj.docstring,
   * None when obj has no such attribute; the short-circuiting `or` only reads it
   * when no rule on the name applies.
   */
  function SkipMemberIf(name: string, docstring: Option<string>): (r: Result<Option<bool>>)
    ensures r != Ok(Some(false))
    ensures r == Ok(Some(true)) <==> SkippedByName(name) || (docstring.Some? && Contains(docstring.value, SkipMarker))
    ensures r == Ok(None) <==> !SkippedByName(name) && docstring.Some? && !Contains(docstring.value, SkipMarker)
    ensures r.Raise? <==> !SkippedByName(name) && docstring.None?
  {
    if name == "bin" then Ok(Some(true))
    else
      var byName := EndsWith(name, ".logger")
        || (StartsWith(name, "commands") && EndsWith(name, ".parse_args"))
        || (StartsWith(name, "bin") && EndsWith(name, ".main"));
      if byName then Ok(Some(true))
      else if docstring.None? then Raise(AttributeError("object has no attribute 'docstring'"))
      else if Contains(docstring.value, SkipMarker) then Ok(Some(true))
      else Ok(None)
  }

  /** The package "bin" is skipped before the docstring is looked at, whatever it holds or lacks. */
  lemma BinSkippedFirst(docstring: Option<string>)
    ensures SkipMemberIf("bin", docstring) == Ok(Some(true))
  {
  }

  /** Every module-level logger is skipped. */
  lemma LoggersSkipped(module_: string, docstring: Option<string>)
    ensures SkipMemberIf(module_ + ".logger", docstring) == Ok(Some(true))
  {
    var name := module_ + ".logger";
    assert name[|name| - |".logger"|..] == ".logger";
  }

  /** The CLI plumbing is skipped: parse_args under commands, main under bin. */
  lemma EntryPointsSkipped(middle: string, docstring: Option<string>)
    ensures SkipMemberIf("commands" + middle + ".parse_args", docstring) == Ok(Some(true))
    ensures SkipMemberIf("bin" + middle + ".main", docstring) == Ok(Some(true))
  {
    var a := "commands" + middle + ".parse_args";
    assert a[..|"commands"|] == "commands" && a[|a| - |".parse_args"|..] == ".parse_args";
    var b := "bin" + middle + ".main";
    assert b[..|"bin"|] == "bin" && b[|b| - |".main"|..] == ".main";
  }

  /** Any other member is skipped when its docstring carries the marker (SkipMemberIf's `Ok(None)` ensures gives the converse). */
  lemma MarkerDecides(name: string, before: string, after: string)
    requires !SkippedByName(name)
    ensures SkipMemberIf(name, Some(before + SkipMarker + after)) == Ok(Some(true))
  {
    var doc := before + SkipMarker + after;
    assert OccursAt(doc, SkipMarker, |before|) by {
      assert doc[|before|..|before| + |SkipMarker|] == SkipMarker;
    }
  }

  /** A name under "bin" other than the package itself and its main functions is not skipped for its name. */
  lemma BinSubmodulesKept()
    ensures SkipMemberIf("bin.commands", Some("")) == Ok(None)
  {
    assert !Contains("", SkipMarker);
  }
}
