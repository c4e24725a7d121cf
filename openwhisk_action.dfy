/** The `ibm_openwhisk_action` resource: the action name Create and Update
    send, the resource id derived from the namespace Insert returns, the
    Update write rule, the Exists rule and the string the set hash is taken of. */
module OpenWhiskAction {
  import opened Common
  import opened Strings

  /** The `action` block: `package` is absent when the key is missing from the
      block's map, and `name` is required. */
  datatype ActionBlock = ActionBlock(package: Option<string>, name: string)

  /** How Go's `%s` verb formats an absent (nil) interface value. */
  const NilVerb := "%!s(<nil>)"

  /** The package as `%s` formats it. */
  function PackageText(package: Option<string>): string
  {
    match package
    case None => NilVerb
    case Some(p) => p
  }

  /** The name Create qualifies: `package/name`, except when the package is
      present and empty (an absent package is not equal to ""). */
  function CreateName(block: ActionBlock): string
  {
    if block.package != Some("") then PackageText(block.package) + "/" + block.name
    else block.name
  }

  /** The name Update qualifies: always `package/name`. */
  function UpdateName(block: ActionBlock): string
  {
    PackageText(block.package) + "/" + block.name
  }

  lemma CreateNameCases(block: ActionBlock)
    ensures block.package == Some("") ==> CreateName(block) == block.name
    ensures (block.package.Some? && block.package.value != "") ==>
      CreateName(block) == block.package.value + "/" + block.name
    ensures block.package.None? ==> CreateName(block) == "%!s(<nil>)/" + block.name
  {
    assert "%!s(<nil>)/" + block.name == NilVerb + "/" + block.name;
  }

  /** Create and Update name the same action unless the package is empty, in
      which case Update's name has a leading "/". */
  lemma UpdateNameVersusCreateName(block: ActionBlock)
    ensures block.package != Some("") ==> UpdateName(block) == CreateName(block)
    ensures block.package == Some("") ==> UpdateName(block) == "/" + CreateName(block)
  {
    if block.package == Some("") {
      assert PackageText(block.package) == "";
      assert "" + "/" + block.name == "/" + block.name;
    }
  }

  /** The resource id after Insert, from the namespace of the returned action:
      when it splits on "/" into exactly two parts (a package's namespace), the
      second part, a "/", and the action name; otherwise the action name. */
  function ActionId(namespace: string, name: string): string
  {
    var parts := Split(namespace, '/');
    if |parts| == 2 then parts[1] + "/" + name else name
  }

  /** A namespace of the form `ns/pkg` gives the id `pkg/name`. */
  lemma ActionIdOfPackageNamespace(ns: string, pkg: string, name: string)
    requires '/' !in ns && '/' !in pkg
    ensures ActionId(ns + "/" + pkg, name) == pkg + "/" + name
  {
    SplitTwo(ns, pkg, '/');
    assert ns + "/" + pkg == ns + ['/'] + pkg;
  }

  /** Any other number of "/" in the namespace leaves the bare action name as id. */
  lemma ActionIdOtherwise(namespace: string, name: string)
    requires CountOf(namespace, '/') != 1
    ensures ActionId(namespace, name) == name
  {
    SplitJoin(namespace, '/');
  }

  /** The entity part of a name the OpenWhisk client resolved. */
  datatype QualifiedName = QualifiedName(namespace: string, entityName: string)

  /** The fields of the Insert payload that come from the name and `publish`. */
  datatype ActionPayload = ActionPayload(name: string, namespace: string, publish: Option<bool>)

  /** An action as the OpenWhisk service returns it. */
  datatype WhiskAction = WhiskAction(namespace: string, name: string)

  /** `resourceIBMOpenWhiskActionCreate` up to the id it sets, before its closing read. `publish` is sent
      only when true, since reading an unset or false boolean reports it as not set. */
  function CreateAction(block: ActionBlock, publish: bool, client: Result<()>,
                        qualify: string -> Result<QualifiedName>,
                        insert: ActionPayload -> Result<WhiskAction>): (r: Result<string>)
    ensures client.Err? ==> r == Err(client.error)
    ensures client.Ok? && qualify(CreateName(block)).Err? ==> r == Err(QualifiedNameError(CreateName(block)))
    ensures r.Ok? ==>
      var qn := qualify(CreateName(block)).value;
      var payload := ActionPayload(qn.entityName, qn.namespace, if publish then Some(true) else None);
      && insert(payload).Ok?
      && r.value == ActionId(insert(payload).value.namespace, insert(payload).value.name)
    ensures client.Ok? && qualify(CreateName(block)).Ok? ==>
      var qn := qualify(CreateName(block)).value;
      var payload := ActionPayload(qn.entityName, qn.namespace, if publish then Some(true) else None);
      && (insert(payload).Ok? ==>
            r == Ok(ActionId(insert(payload).value.namespace, insert(payload).value.name)))
      && (insert(payload).Err? ==> r == Err(Wrapped("Error creating OpenWhisk Action", insert(payload).error)))
  {
    var _ :- client;
    var name := CreateName(block);
    match qualify(name)
    case Err(_) => Err(QualifiedNameError(name))
    case Ok(qn) =>
      var payload := ActionPayload(qn.entityName, qn.namespace, if publish then Some(true) else None);
      match insert(payload)
      case Err(e) => Err(Wrapped("Error creating OpenWhisk Action", e))
      case Ok(action) => Ok(ActionId(action.namespace, action.name))
  }

  /** An Insert call: the payload and whether it overwrites an existing action. */
  datatype InsertCall = InsertCall(payload: ActionPayload, overwrite: bool)

  /** `resourceIBMOpenWhiskActionUpdate` before its read: the Insert call it
      made, if any. */
  function UpdateAction(block: ActionBlock, publishChanged: bool, publish: bool, client: Result<()>,
                        qualify: string -> Result<QualifiedName>,
                        insert: InsertCall -> Result<()>): (r: Result<Option<InsertCall>>)
    ensures client.Err? ==> r == Err(client.error)
    ensures client.Ok? && qualify(UpdateName(block)).Ok? ==>
      (r == Ok(None) <==> !publishChanged)
    ensures client.Ok? && qualify(UpdateName(block)).Ok? && publishChanged ==>
      var qn := qualify(UpdateName(block)).value;
      var call := InsertCall(ActionPayload(qn.entityName, qn.namespace, Some(publish)), true);
      && (insert(call).Ok? ==> r == Ok(Some(call)))
      && (insert(call).Err? ==> r == Err(Wrapped("Error updating OpenWhisk Action", insert(call).error)))
    ensures r.Ok? && r.value.Some? ==>
      && publishChanged && r.value.value.overwrite && r.value.value.payload.publish == Some(publish)
      && qualify(UpdateName(block)).Ok?
      && r.value.value.payload.name == qualify(UpdateName(block)).value.entityName
    ensures client.Ok? && qualify(UpdateName(block)).Err? ==> r == Err(QualifiedNameError(UpdateName(block)))
  {
    var _ :- client;
    var name := UpdateName(block);
    match qualify(name)
    case Err(_) => Err(QualifiedNameError(name))
    case Ok(qn) =>
      if !publishChanged then Ok(None)
      else
        var call := InsertCall(ActionPayload(qn.entityName, qn.namespace, Some(publish)), true);
        match insert(call)
        case Err(e) => Err(Wrapped("Error updating OpenWhisk Action", e))
        case Ok(_) => Ok(Some(call))
  }

  /** What the Get call gives: the action, or an error and the HTTP response
      when there was one. */
  datatype GetResult = Got(action: WhiskAction) | GetFailed(statusCode: Option<int>, error: Error)

  /** `resourceIBMOpenWhiskActionExists`. A failure without a response makes the
      status-code read dereference nil. */
  function ActionExists(id: string, client: Result<()>, qualify: string -> Result<QualifiedName>,
                        get: GetResult): (r: Result<bool>)
    ensures client.Err? ==> r == Err(client.error)
    ensures client.Ok? && qualify(id).Err? ==> r == Err(QualifiedNameError(id))
    ensures client.Ok? && qualify(id).Ok? ==>
      && (get.Got? ==> r == Ok(get.action.name == id))
      && (get.GetFailed? && get.statusCode == Some(404) ==> r == Ok(false))
      && (get.GetFailed? && get.statusCode.None? ==> r == Err(Crash))
      && (get.GetFailed? && get.statusCode.Some? && get.statusCode.value != 404 ==>
            r == Err(Wrapped("Error communicating with OpenWhisk Client", get.error)))
  {
    var _ :- client;
    if qualify(id).Err? then Err(QualifiedNameError(id))
    else
      match get
      case Got(action) => Ok(action.name == id)
      case GetFailed(None, _) => Err(Crash)
      case GetFailed(Some(code), e) =>
        if code == 404 then Ok(false) else Err(Wrapped("Error communicating with OpenWhisk Client", e))
  }

  /** An id holding a "/" (one Create derived from a package namespace) never
      matches a returned action name without one, so Exists reports such an
      action as gone. */
  lemma ExistsRejectsPackagedId(ns: string, pkg: string, name: string, qualify: string -> Result<QualifiedName>,
                                got: WhiskAction)
    requires '/' !in ns && '/' !in pkg && '/' !in got.name
    requires qualify(ActionId(ns + "/" + pkg, name)).Ok?
    ensures ActionExists(ActionId(ns + "/" + pkg, name), Ok(()), qualify, Got(got)) == Ok(false)
  {
    ActionIdOfPackageNamespace(ns, pkg, name);
    var id := pkg + "/" + name;
    assert id[|pkg|] == '/';
    assert got.name != id;
  }

  /** A growing string buffer, written to in place. */
  class Buffer {
    var contents: string

    constructor()
      ensures contents == ""
    {
      contents := "";
    }

    method WriteString(s: string)
      modifies this
      ensures contents == old(contents) + s
    {
      contents := contents + s;
    }
  }

  /** The string the set hash of the `action` block is taken of. */
  function HashInput(block: ActionBlock): string
  {
    (match block.package case Some(p) => p + "-" case None => "") + block.name + "-"
  }

  /** `resourceIBMOpenWhiskActionHash` before the checksum: the buffer's contents. */
  method HashKey(block: ActionBlock) returns (key: string)
    ensures key == HashInput(block)
  {
    var buf := new Buffer();
    if block.package.Some? {
      buf.WriteString(block.package.value + "-");
    }
    buf.WriteString(block.name + "-");
    key := buf.contents;
  }

  /** The hash input splits on "-" back into its components. */
  lemma HashInputPieces(block: ActionBlock)
    requires '-' !in block.name
    requires block.package.Some? ==> '-' !in block.package.value
    ensures block.package.None? ==> Split(HashInput(block), '-') == [block.name, ""]
    ensures block.package.Some? ==> Split(HashInput(block), '-') == [block.package.value, block.name, ""]
  {
    SplitWithoutSeparator("", '-');
    assert block.name + "-" == block.name + ['-'] + "";
    SplitAtFirst(block.name, "", '-');
    if block.package.None? {
      assert HashInput(block) == block.name + ['-'] + "";
    } else {
      var p := block.package.value;
      assert HashInput(block) == p + ['-'] + (block.name + "-");
      SplitAtFirst(p, block.name + "-", '-');
    }
  }

  /** Blocks whose components hold no "-" have distinct hash inputs. */
  lemma HashInputInjective(a: ActionBlock, b: ActionBlock)
    requires '-' !in a.name && '-' !in b.name
    requires a.package.Some? ==> '-' !in a.package.value
    requires b.package.Some? ==> '-' !in b.package.value
    requires HashInput(a) == HashInput(b)
    ensures a == b
  {
    HashInputPieces(a);
    HashInputPieces(b);
  }

  /** A "-" in a component lets distinct blocks share a hash input. */
  lemma HashInputCollision()
    ensures ActionBlock(Some("x"), "y") != ActionBlock(None, "x-y")
    ensures HashInput(ActionBlock(Some("x"), "y")) == HashInput(ActionBlock(None, "x-y"))
  {
  }
}
