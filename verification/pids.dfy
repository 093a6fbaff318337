/** Process identifiers: the node that owns the process, a number unique on that node,
    and a creation number that tells restarts of the node apart. */
module Pids {
  datatype Pid = Pid(node: string, id: nat, creation: nat)
}
