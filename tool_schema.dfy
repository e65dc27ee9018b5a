/**
 * The shape every agent tool declares (server/neuro_simulator/neuro_sama/tools/base.py):
 * a name, a description and a list of parameters, which
 * `ToolManager.get_tool_schemas` gathers into one dict per tool.
 */
module ToolSchema {
  /** One entry of a tool's `parameters` list. */
  datatype Param = Param(name: string, typ: string, description: string, required: bool)

  /** `{"name", "description", "parameters"}` for one tool. */
  datatype Schema = Schema(name: string, description: string, parameters: seq<Param>)

  /** The names of the parameters marked required, in declaration order. */
  function RequiredNames(ps: seq<Param>): (names: seq<string>)
    ensures |names| <= |ps|
    ensures forall n :: n in names <==> exists i :: 0 <= i < |ps| && ps[i].required && ps[i].name == n
  {
    if ps == [] then []
    else
      var rest := RequiredNames(ps[1..]);
      assert forall i :: 1 <= i < |ps| ==> ps[i] == ps[1..][i - 1];
      if ps[0].required then [ps[0].name] + rest else rest
  }
}
