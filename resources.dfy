/**
 * The resource declarations of lib/resources/: a path, the basic methods a
 * resource takes over, and its own method specifications. Only Contacts,
 * Projects and Timesheets are part of this model.
 */
module ResourceDecls {
  import opened JsValues
  import opened BasicMethods

  datatype ResourceDecl = ResourceDecl(
    path: string,
    includeBasic: seq<string>,
    custom: map<string, MethodSpec>)

  /** lib/resources/Contacts.js */
  const Contacts: ResourceDecl := ResourceDecl("contacts", ["list"], map[])

  /** lib/resources/Projects.js */
  const Projects: ResourceDecl := ResourceDecl("projects", [], map[
    "list" := MethodSpec("GET", None, None, Some(["projectKey"]), None),
    "create" := MethodSpec("POST", None, None, None, Some(map["Content-Type" := Str("application/json")]))
  ])

  /** lib/resources/Timesheets.js */
  const Timesheets: ResourceDecl := ResourceDecl("timesheets", ["list"], map[])

  /** The client's `resources` table, by class name, in declaration order. */
  const ResourceTable: seq<(string, ResourceDecl)> :=
    [("Contacts", Contacts), ("Projects", Projects), ("Timesheets", Timesheets)]
}
