/**
 * Route table entries as the configuration hands them to the server: a path,
 * the kind of resource it names, and the upstream it resolves to.
 */
module Routing {

  /** The kind of resource a route names: the built-in "about" endpoint or a proxied resource. */
  datatype Resource = AboutJabba | Proxied(name: string)

  /** The identity of an upstream target. */
  datatype Upstream = Upstream(target: string)

  /**
   * What resolving a route's resource yields: an upstream with its label,
   * or nothing usable (a configuration defect).
   */
  datatype Binding = Mapped(upstream: Upstream, upstreamLabel: string) | Unmapped

  datatype Route = Route(path: string, resource: Resource, binding: Binding)
}
