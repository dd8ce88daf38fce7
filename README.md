# hetzner-ts, modelled in Dafny

hetzner-ts is a thin TypeScript client for the Hetzner Cloud API. Every resource
class (`Servers`, `Volumes`, `LoadBalancers`, `Firewalls`, `FloatingIPs`,
`Networks`, `Certificates`, `SSHKeys`, `Locations`, `Datacenters`, and their
`actions` classes) extends `BaseAPI`. Each method builds an endpoint path, and
sometimes a request body, and hands both to `BaseAPI.request`. That method
prefixes the base URL, forces the `Authorization` and `Content-Type` headers,
fetches, and turns the response into `{ success, response }`.

This project models that client:

- `Base` models `BaseAPI`: the constructor, the URL and header assembly of
  `request`, and the classification of a response (204 gives null, 2xx succeeds,
  anything else fails with the parsed body, a non-JSON body rejects). The HTTP
  response is an input.
- `JsValue` models the JavaScript values that filters and bodies are made of, and
  `toString()` on them (a TypeError on `undefined` and `null`; arrays are
  comma-joined with missing elements written as empty).
- `QueryPairs` specifies the four ways the list methods fill their
  `URLSearchParams`. They are one pair per key (`OnePerKey`), arrays expanded
  into repeated keys (`Expanding`), the array test before the undefined test
  (`ArrayFirst`), and skipping `undefined`, `null` and `""` (`Present`).
  `QueryBuilder` holds the imperative `forEach` loops over a `SearchParams`
  object, proved to build exactly the specified pairs.
- `FormUrlEncoded` is the application/x-www-form-urlencoded serializer of
  section 5.2 of the WHATWG URL Standard (what `URLSearchParams.toString()`
  writes).
- `Endpoint` is path assembly by string concatenation together with its
  inverse, `Parse`, which reads segments and query back and marks a path
  without its leading `/` as `Unrooted`. Every route contract is stated as
  `Parse(endpoint) == Target(segments, query)`; `Endpoint.ParseInverse` proves
  that only one endpoint parses to a given target, so such a contract fixes
  the endpoint exactly, leading `/` and `?` included. The "states" column
  below says "is exactly" for these contracts.
- `Calls` holds the request shapes shared by all classes: GET, POST, PUT and
  DELETE on a route, a list call that adds `?` only for a non-empty query, and
  one that always adds it.
- One module per resource file holds its routes. A resource with sub-accessors
  is a class whose nullable cache fields are filled on first access and never
  replaced.

## Model

| member | source | states |
|---|---|---|
| LoadBalancerActions.LoadBalancerActions.constructor | src/base.ts:4-9 | the new object holds the token unchanged and the default base URL `https://api.hetzner.cloud/v1` |
| LoadBalancerActions.ListAllGlobal | src/load-balancers/actions.ts:25-47 | GET with no options; pairs are `Pairs(Expanding, params)` (undefined entries skipped, each array element its own pair under the key); the endpoint is exactly `/load_balancers/actions` with no query when no pair is built and with the encoded pairs otherwise; a `toString()` TypeError becomes the error result |
| LoadBalancerActions.GetGlobalAction | src/load-balancers/actions.ts:53-59 | GET (no options) on the endpoint, which is exactly `/load_balancers/actions/{actionId}` with no query |
| LoadBalancerActions.ListForLoadBalancer | src/load-balancers/actions.ts:66-89 | GET with no options; pairs are `Pairs(Expanding, params)` (undefined entries skipped, each array element its own pair under the key); the endpoint is exactly `/load_balancers/{loadBalancerId}/actions` with no query when no pair is built and with the encoded pairs otherwise; a `toString()` TypeError becomes the error result |
| LoadBalancerActions.GetAction | src/load-balancers/actions.ts:96-105 | GET (no options) on the endpoint, which is exactly `/load_balancers/{loadBalancerId}/actions/{actionId}` with no query |
| LoadBalancerActions.AddService | src/load-balancers/actions.ts:107-117 | POST to `/load_balancers/{loadBalancerId}/actions/add_service` (exactly, no query) with the params object as body, unchanged |
| LoadBalancerActions.UpdateService | src/load-balancers/actions.ts:119-129 | POST to `/load_balancers/{loadBalancerId}/actions/update_service` (exactly, no query) with the params object as body, unchanged |
| LoadBalancerActions.DeleteService | src/load-balancers/actions.ts:131-141 | POST to `/load_balancers/{loadBalancerId}/actions/delete_service` (exactly, no query) with the params object as body, unchanged |
| LoadBalancerActions.AddTarget | src/load-balancers/actions.ts:143-153 | POST to `/load_balancers/{loadBalancerId}/actions/add_target` (exactly, no query) with the params object as body, unchanged |
| LoadBalancerActions.RemoveTarget | src/load-balancers/actions.ts:155-165 | POST to `/load_balancers/{loadBalancerId}/actions/remove_target` (exactly, no query) with the params object as body, unchanged |
| LoadBalancerActions.AttachToNetwork | src/load-balancers/actions.ts:167-177 | POST to `/load_balancers/{loadBalancerId}/actions/attach_to_network` (exactly, no query) with the params object as body, unchanged |
| LoadBalancerActions.DetachFromNetwork | src/load-balancers/actions.ts:179-189 | POST to `/load_balancers/{loadBalancerId}/actions/detach_from_network` (exactly, no query) with the params object as body, unchanged |
| LoadBalancerActions.ChangeAlgorithm | src/load-balancers/actions.ts:191-201 | POST to `/load_balancers/{loadBalancerId}/actions/change_algorithm` (exactly, no query) with the params object as body, unchanged |
| LoadBalancerActions.ChangeDNSPTR | src/load-balancers/actions.ts:203-213 | POST to `/load_balancers/{loadBalancerId}/actions/change_dns_ptr` (exactly, no query) with the params object as body, unchanged |
| LoadBalancerActions.ChangeProtection | src/load-balancers/actions.ts:215-225 | POST to `/load_balancers/{loadBalancerId}/actions/change_protection` (exactly, no query) with the params object as body, unchanged |
| LoadBalancerActions.ChangeType | src/load-balancers/actions.ts:227-237 | POST to `/load_balancers/{loadBalancerId}/actions/change_type` (exactly, no query) with the params object as body, unchanged |
| LoadBalancerActions.EnablePublicInterface | src/load-balancers/actions.ts:239-248 | POST with no body to the endpoint, which is exactly `/load_balancers/{loadBalancerId}/actions/enable_public_interface` with no query |
| LoadBalancerActions.DisablePublicInterface | src/load-balancers/actions.ts:250-259 | POST with no body to the endpoint, which is exactly `/load_balancers/{loadBalancerId}/actions/disable_public_interface` with no query |
| VolumeActions.VolumeActions.constructor | src/base.ts:4-9 | the new object holds the token unchanged and the default base URL `https://api.hetzner.cloud/v1` |
| VolumeActions.GetAll | src/volumes/actions.ts:16-38 | GET with no options; pairs are `Pairs(Expanding, params)` (undefined entries skipped, each array element its own pair under the key); the endpoint is exactly `/volumes/actions` with no query when no pair is built and with the encoded pairs otherwise; a `toString()` TypeError becomes the error result |
| VolumeActions.GetGlobalAction | src/volumes/actions.ts:44-52 | GET (no options) on the endpoint, which is exactly `/volumes/actions/{actionId}` with no query |
| VolumeActions.ListForVolume | src/volumes/actions.ts:59-82 | GET with no options; pairs are `Pairs(Expanding, params)` (undefined entries skipped, each array element its own pair under the key); the endpoint is exactly `/volumes/{volumeId}/actions` with no query when no pair is built and with the encoded pairs otherwise; a `toString()` TypeError becomes the error result |
| VolumeActions.GetAction | src/volumes/actions.ts:89-99 | GET (no options) on the endpoint, which is exactly `/volumes/{volumeId}/actions/{actionId}` with no query |
| VolumeActions.Attach | src/volumes/actions.ts:106-120 | POST to `/volumes/{volumeId}/actions/attach` (exactly, no query) with the params object as body, unchanged |
| VolumeActions.Detach | src/volumes/actions.ts:126-138 | POST with no body to the endpoint, which is exactly `/volumes/{volumeId}/actions/detach` with no query |
| VolumeActions.Resize | src/volumes/actions.ts:145-159 | POST to `/volumes/{volumeId}/actions/resize` (exactly, no query) with the params object as body, unchanged |
| VolumeActions.ChangeProtection | src/volumes/actions.ts:166-180 | POST to `/volumes/{volumeId}/actions/change_protection` (exactly, no query) with the params object as body, unchanged |
| Volumes.Volumes.Actions | src/volumes/volumes.ts:103-108 | first access stores a fresh `VolumeActions` built with the parent's token; later accesses return the stored object unchanged |
| Volumes.Volumes.constructor | src/base.ts:4-9 | token stored unchanged, default base URL, no accessor cached yet |
| Volumes.List | src/volumes/volumes.ts:20-39 | GET with no options; pairs are `Pairs(Expanding, params)` (undefined entries skipped, each array element its own pair under the key); the endpoint is exactly `/volumes` with no query when no pair is built and with the encoded pairs otherwise; a `toString()` TypeError becomes the error result |
| Volumes.Get | src/volumes/volumes.ts:45-51 | GET (no options) on the endpoint, which is exactly `/volumes/{id}` with no query |
| Volumes.Create | src/volumes/volumes.ts:57-68 | POST to `/volumes` (exactly, no query) with the params object as body, unchanged |
| Volumes.Update | src/volumes/volumes.ts:75-85 | PUT on `/volumes/{id}` (exactly, no query) with the params object as body, unchanged |
| Volumes.Delete | src/volumes/volumes.ts:91-101 | DELETE with no body on the endpoint, which is exactly `/volumes/{id}` with no query |
| CertificateActions.CertificateActions.constructor | src/base.ts:4-9 | the new object holds the token unchanged and the default base URL `https://api.hetzner.cloud/v1` |
| CertificateActions.GetAll | src/security/actions.ts:41-61 | GET with no options; pairs are `Pairs(ArrayFirst, params)` (arrays expanded into repeated keys before the undefined test, other undefined entries skipped); the endpoint is exactly `/certificates/actions` with no query when no pair is built and with the encoded pairs otherwise; a `toString()` TypeError becomes the error result |
| CertificateActions.Get | src/security/actions.ts:67-73 | GET (no options) on the endpoint, which is exactly `/certificates/actions/{actionId}` with no query |
| CertificateActions.ListForCertificate | src/security/actions.ts:80-101 | GET with no options; pairs are `Pairs(ArrayFirst, params)` (arrays expanded into repeated keys before the undefined test, other undefined entries skipped); the endpoint is exactly `/certificates/{certificateId}/actions` with no query when no pair is built and with the encoded pairs otherwise; a `toString()` TypeError becomes the error result |
| CertificateActions.GetForCertificate | src/security/actions.ts:108-117 | GET (no options) on the endpoint, which is exactly `/certificates/{certificateId}/actions/{actionId}` with no query |
| CertificateActions.Retry | src/security/actions.ts:123-131 | POST with no body to the endpoint, which is exactly `/certificates/{certificateId}/actions/retry` with no query |
| PlacementGroups.PlacementGroup.constructor | src/base.ts:4-9 | the new object holds the token unchanged and the default base URL `https://api.hetzner.cloud/v1` |
| PlacementGroups.GetAll | src/servers/placement-groups/placement-group.ts:46-64 | GET with no options; pairs are `Pairs(Present, params)` (undefined, null and "" skipped, one pair per key); the endpoint is `/placement_groups?` followed by the encoded pairs, `?` even when there are none; a `toString()` TypeError becomes the error result |
| PlacementGroups.Get | src/servers/placement-groups/placement-group.ts:70-77 | GET (no options) on the endpoint, which is exactly `/placement_groups/{id}` with no query |
| PlacementGroups.Create | src/servers/placement-groups/placement-group.ts:83-93 | POST to `/placement_groups` (exactly, no query) with the params object as body, unchanged |
| PlacementGroups.Update | src/servers/placement-groups/placement-group.ts:100-111 | PUT on `/placement_groups/{id}` (exactly, no query) with the params object as body, unchanged |
| PlacementGroups.Delete | src/servers/placement-groups/placement-group.ts:117-123 | DELETE with no body on the endpoint, which is exactly `/placement_groups/{id}` with no query |
| PrimaryIPs.PrimaryIP.constructor | src/base.ts:4-9 | the new object holds the token unchanged and the default base URL `https://api.hetzner.cloud/v1` |
| PrimaryIPs.List | src/servers/primary-ip/primary-ip.ts:40-57 | GET with no options; pairs are `Pairs(Present, params)` (undefined, null and "" skipped, one pair per key); the endpoint is `/primary_ips?` followed by the encoded pairs, `?` even when there are none; a `toString()` TypeError becomes the error result |
| PrimaryIPs.Get | src/servers/primary-ip/primary-ip.ts:59-66 | GET (no options) on the endpoint, which is exactly `/primary_ips/{id}` with no query |
| PrimaryIPs.Create | src/servers/primary-ip/primary-ip.ts:68-77 | POST to `/primary_ips` (exactly, no query) with the params object as body, unchanged |
| PrimaryIPs.Update | src/servers/primary-ip/primary-ip.ts:79-90 | PUT on `/primary_ips/{id}` (exactly, no query) with the params object as body, unchanged |
| PrimaryIPs.Delete | src/servers/primary-ip/primary-ip.ts:91-97 | DELETE with no body on the endpoint, which is exactly `/primary_ips/{id}` with no query |
| Images.Images.constructor | src/base.ts:4-9 | the new object holds the token unchanged and the default base URL `https://api.hetzner.cloud/v1` |
| Images.GetAll | src/servers/images/images.ts:36-51 | GET with no options; pairs are `Pairs(Present, params)` (undefined, null and "" skipped, one pair per key); the endpoint is `/images?` followed by the encoded pairs, `?` even when there are none; a `toString()` TypeError becomes the error result |
| Images.Get | src/servers/images/images.ts:57-63 | GET (no options) on the endpoint, which is exactly `/images/{id}` with no query |
| Images.Update | src/servers/images/images.ts:70-80 | PUT on `/images/{id}` (exactly, no query) with the params object as body, unchanged |
| Images.Delete | src/servers/images/images.ts:86-92 | DELETE with no body on the endpoint, which is exactly `/images/{id}` with no query |
| Isos.Isos.constructor | src/base.ts:4-9 | the new object holds the token unchanged and the default base URL `https://api.hetzner.cloud/v1` |
| Isos.List | src/servers/isos/isos.ts:24-39 | GET with no options; pairs are `Pairs(Present, params)` (undefined, null and "" skipped, one pair per key); the endpoint is `/isos?` followed by the encoded pairs, `?` even when there are none; a `toString()` TypeError becomes the error result |
| Isos.Get | src/servers/isos/isos.ts:45-49 | GET (no options) on the endpoint, which is exactly `/isos/{id}` with no query |
| ServerTypes.ServerTypes.constructor | src/base.ts:4-9 | the new object holds the token unchanged and the default base URL `https://api.hetzner.cloud/v1` |
| ServerTypes.GetAll | src/servers/server-types/server-types.ts:16-34 | GET with no options; pairs are `Pairs(Present, params)` (undefined, null and "" skipped, one pair per key); the endpoint is `/server_types?` followed by the encoded pairs, `?` even when there are none; a `toString()` TypeError becomes the error result |
| ServerTypes.Get | src/servers/server-types/server-types.ts:36-43 | GET (no options) on the endpoint, which is exactly `/server_types/{id}` with no query |
| Servers.Servers.PrimaryIP | src/servers/servers.ts:54-59 | first access stores a fresh `PrimaryIP` built with the parent's token; later accesses return the stored object unchanged; no other cached field changes |
| Servers.Servers.Images | src/servers/servers.ts:61-66 | first access stores a fresh `Images` built with the parent's token; later accesses return the stored object unchanged; no other cached field changes |
| Servers.Servers.PlacementGroups | src/servers/servers.ts:68-73 | first access stores a fresh `PlacementGroup` built with the parent's token; later accesses return the stored object unchanged; no other cached field changes |
| Servers.Servers.Isos | src/servers/servers.ts:75-80 | first access stores a fresh `Isos` built with the parent's token; later accesses return the stored object unchanged; no other cached field changes |
| Servers.Servers.ServerTypes | src/servers/servers.ts:82-87 | first access stores a fresh `ServerTypes` built with the parent's token; later accesses return the stored object unchanged; no other cached field changes |
| Servers.Servers.constructor | src/base.ts:4-9 | token stored unchanged, default base URL, no accessor cached yet |
| Servers.List | src/servers/servers.ts:89-105 | GET with no options; pairs are `Pairs(OnePerKey, params)` (undefined entries skipped, one pair per key, arrays comma-joined by `toString()`); the endpoint is exactly `/servers` with no query when no pair is built and with the encoded pairs otherwise; a `toString()` TypeError becomes the error result |
| Servers.Get | src/servers/servers.ts:107-113 | GET (no options) on the endpoint, which is exactly `/servers/{id}` with no query |
| Servers.Create | src/servers/servers.ts:115-125 | POST to `/servers` (exactly, no query) with the params object as body, unchanged |
| Servers.Delete | src/servers/servers.ts:127-133 | DELETE with no body on the endpoint, which is exactly `/servers/{id}` with no query |
| LoadBalancers.LoadBalancers.Actions | src/load-balancers/load-balancers.ts:151-156 | first access stores a fresh `LoadBalancerActions` built with the parent's token; later accesses return the stored object unchanged |
| LoadBalancers.LoadBalancers.constructor | src/base.ts:4-9 | token stored unchanged, default base URL, no accessor cached yet |
| LoadBalancers.List | src/load-balancers/load-balancers.ts:25-42 | GET with no options; pairs are `Pairs(OnePerKey, params)` (undefined entries skipped, one pair per key, arrays comma-joined by `toString()`); the endpoint is exactly `/load_balancers` with no query when no pair is built and with the encoded pairs otherwise; a `toString()` TypeError becomes the error result |
| LoadBalancers.Create | src/load-balancers/load-balancers.ts:47-56 | POST to `/load_balancers` (exactly, no query) with the params object as body, unchanged |
| LoadBalancers.Get | src/load-balancers/load-balancers.ts:61-67 | GET (no options) on the endpoint, which is exactly `/load_balancers/{id}` with no query |
| LoadBalancers.Update | src/load-balancers/load-balancers.ts:72-82 | PUT on `/load_balancers/{id}` (exactly, no query) with the params object as body, unchanged |
| LoadBalancers.Delete | src/load-balancers/load-balancers.ts:87-94 | DELETE with no body on the endpoint, which is exactly `/load_balancers/{id}` with no query |
| LoadBalancers.GetMetrics | src/load-balancers/load-balancers.ts:99-115 | params required (no `if (params)`); GET with no options; pairs are `Pairs(OnePerKey, params)` (undefined entries skipped, one pair per key, arrays comma-joined by `toString()`); the endpoint is `/load_balancers/{id}/metrics?` followed by the encoded pairs, `?` even when there are none; a `toString()` TypeError becomes the error result |
| LoadBalancers.ListTypes | src/load-balancers/load-balancers.ts:121-138 | GET with no options; pairs are `Pairs(OnePerKey, params)` (undefined entries skipped, one pair per key, arrays comma-joined by `toString()`); the endpoint is exactly `/load_balancer_types` with no query when no pair is built and with the encoded pairs otherwise; a `toString()` TypeError becomes the error result |
| LoadBalancers.GetType | src/load-balancers/load-balancers.ts:143-149 | GET (no options) on the endpoint, which is exactly `/load_balancer_types/{id}` with no query |
| LoadBalancerTypes.List | src/load-balancers/load-balancers-types.ts:21-39 | GET with no options; pairs are `Pairs(OnePerKey, params)` (undefined entries skipped, one pair per key, arrays comma-joined by `toString()`); the endpoint is exactly `/load_balancer_types` with no query when no pair is built and with the encoded pairs otherwise; a `toString()` TypeError becomes the error result |
| LoadBalancerTypes.Get | src/load-balancers/load-balancers-types.ts:44-53 | GET (no options) on the endpoint, which is exactly `/load_balancer_types/{id}` with no query |
| Firewalls.Firewalls.Actions | src/firewalls/firewalls.ts:54-59 | first access stores a fresh `FirewallActions` built with the parent's token; later accesses return the stored object unchanged |
| Firewalls.Firewalls.constructor | src/base.ts:4-9 | token stored unchanged, default base URL, no accessor cached yet |
| Firewalls.GetAll | src/firewalls/firewalls.ts:65-81 | GET with no options; pairs are `Pairs(OnePerKey, params)` (undefined entries skipped, one pair per key, arrays comma-joined by `toString()`); the endpoint is exactly `/firewalls` with no query when no pair is built and with the encoded pairs otherwise; a `toString()` TypeError becomes the error result |
| Firewalls.Create | src/firewalls/firewalls.ts:87-96 | POST to `/firewalls` (exactly, no query) with the params object as body, unchanged |
| Firewalls.Get | src/firewalls/firewalls.ts:102-108 | GET (no options) on the endpoint, which is exactly `/firewalls/{id}` with no query |
| Firewalls.Update | src/firewalls/firewalls.ts:115-125 | PUT on `/firewalls/{id}` (exactly, no query) with the params object as body, unchanged |
| Firewalls.Delete | src/firewalls/firewalls.ts:131-137 | DELETE with no body on the endpoint, which is exactly `/firewalls/{id}` with no query |
| FirewallActions.FirewallActions.constructor | src/base.ts:4-9 | the new object holds the token unchanged and the default base URL `https://api.hetzner.cloud/v1` |
| FirewallActions.GetAll | src/firewalls/actions.ts:24-46 | GET with no options; pairs are `Pairs(OnePerKey, params)` (undefined entries skipped, one pair per key, arrays comma-joined by `toString()`); the endpoint is exactly `/firewalls/actions` with no query when no pair is built and with the encoded pairs otherwise; a `toString()` TypeError becomes the error result |
| FirewallActions.Get | src/firewalls/actions.ts:51-58 | GET (no options) on the endpoint, which is exactly `/firewalls/{firewallId}/actions/{actionId}` with no query |
| FirewallActions.ApplyToResources | src/firewalls/actions.ts:63-76 | POST to `/firewalls/{firewallId}/actions/apply_to_resources` (exactly, no query) with the body object `{apply_to: resources}` |
| FirewallActions.RemoveFromResources | src/firewalls/actions.ts:81-94 | POST to `/firewalls/{firewallId}/actions/remove_from_resources` (exactly, no query) with the body object `{remove_from: resources}` |
| FirewallActions.SetRules | src/firewalls/actions.ts:99-109 | POST to `/firewalls/{firewallId}/actions/set_rules` (exactly, no query) with the body object `{rules: rules}` |
| FirewallActions.GetFirewallActions | src/firewalls/actions.ts:114-138 | GET with no options; pairs are `Pairs(OnePerKey, params)` (undefined entries skipped, one pair per key, arrays comma-joined by `toString()`); the endpoint is exactly `/firewalls/{firewallId}/actions` with no query when no pair is built and with the encoded pairs otherwise; a `toString()` TypeError becomes the error result |
| FirewallActions.GetFirewallAction | src/firewalls/actions.ts:143-150 | GET (no options) on the endpoint, which is exactly `/firewalls/{firewallId}/actions/{actionId}` with no query |
| FloatingIPs.FloatingIPs.Actions | src/floating-ips/floating-ips.ts:93-98 | first access stores a fresh `FloatingIPActions` built with the parent's token; later accesses return the stored object unchanged |
| FloatingIPs.FloatingIPs.constructor | src/base.ts:4-9 | token stored unchanged, default base URL, no accessor cached yet |
| FloatingIPs.List | src/floating-ips/floating-ips.ts:19-35 | GET with no options; pairs are `Pairs(OnePerKey, params)` (undefined entries skipped, one pair per key, arrays comma-joined by `toString()`); the endpoint is exactly `/floating_ips` with no query when no pair is built and with the encoded pairs otherwise; a `toString()` TypeError becomes the error result |
| FloatingIPs.Get | src/floating-ips/floating-ips.ts:41-45 | GET (no options) on the endpoint, which is exactly `/floating_ips/{id}` with no query |
| FloatingIPs.Create | src/floating-ips/floating-ips.ts:51-61 | POST to `/floating_ips` (exactly, no query) with the params object as body, unchanged |
| FloatingIPs.Update | src/floating-ips/floating-ips.ts:68-79 | PUT on `/floating_ips/{id}` (exactly, no query) with the params object as body, unchanged |
| FloatingIPs.Delete | src/floating-ips/floating-ips.ts:85-91 | DELETE with no body on the endpoint, which is exactly `/floating_ips/{id}` with no query |
| FloatingIPActions.FloatingIPActions.constructor | src/base.ts:4-9 | the new object holds the token unchanged and the default base URL `https://api.hetzner.cloud/v1` |
| FloatingIPActions.GetAll | src/floating-ips/actions.ts:17-35 | GET with no options; pairs are `Pairs(OnePerKey, params)` (undefined entries skipped, one pair per key, arrays comma-joined by `toString()`); the endpoint is exactly `/floating_ips/actions` with no query when no pair is built and with the encoded pairs otherwise; a `toString()` TypeError becomes the error result |
| FloatingIPActions.Get | src/floating-ips/actions.ts:41-48 | GET (no options) on the endpoint, which is exactly `/floating_ips/actions/{actionId}` with no query |
| FloatingIPActions.ListForFloatingIP | src/floating-ips/actions.ts:55-74 | GET with no options; pairs are `Pairs(OnePerKey, params)` (undefined entries skipped, one pair per key, arrays comma-joined by `toString()`); the endpoint is exactly `/floating_ips/{floatingIpId}/actions` with no query when no pair is built and with the encoded pairs otherwise; a `toString()` TypeError becomes the error result |
| FloatingIPActions.Assign | src/floating-ips/actions.ts:81-95 | POST to `/floating_ips/{floatingIpId}/actions/assign` (exactly, no query) with the params object as body, unchanged |
| FloatingIPActions.Unassign | src/floating-ips/actions.ts:101-113 | POST with no body to the endpoint, which is exactly `/floating_ips/{floatingIpId}/actions/unassign` with no query |
| FloatingIPActions.ChangeDNSPTR | src/floating-ips/actions.ts:120-134 | POST to `/floating_ips/{floatingIpId}/actions/change_dns_ptr` (exactly, no query) with the params object as body, unchanged |
| FloatingIPActions.ChangeProtection | src/floating-ips/actions.ts:141-155 | POST to `/floating_ips/{floatingIpId}/actions/change_protection` (exactly, no query) with the params object as body, unchanged |
| FloatingIPActions.GetForFloatingIP | src/floating-ips/actions.ts:162-172 | GET (no options) on the endpoint, which is exactly `/floating_ips/{floatingIpId}/actions/{actionId}` with no query |
| Networks.Networks.Actions | src/networks/networks.ts:92-97 | first access stores a fresh `NetworkActions` built with the parent's token; later accesses return the stored object unchanged |
| Networks.Networks.constructor | src/base.ts:4-9 | token stored unchanged, default base URL, no accessor cached yet |
| Networks.List | src/networks/networks.ts:19-34 | GET with no options; pairs are `Pairs(OnePerKey, params)` (undefined entries skipped, one pair per key, arrays comma-joined by `toString()`); the endpoint is exactly `/networks` with no query when no pair is built and with the encoded pairs otherwise; a `toString()` TypeError becomes the error result |
| Networks.Create | src/networks/networks.ts:40-49 | POST to `/networks` (exactly, no query) with the params object as body, unchanged |
| Networks.Get | src/networks/networks.ts:55-61 | GET (no options) on the endpoint, which is exactly `/networks/{id}` with no query |
| Networks.Update | src/networks/networks.ts:68-78 | PUT on `/networks/{id}` (exactly, no query) with the params object as body, unchanged |
| Networks.Delete | src/networks/networks.ts:84-90 | DELETE with no body on the endpoint, which is exactly `/networks/{id}` with no query |
| NetworkActions.NetworkActions.constructor | src/base.ts:4-9 | the new object holds the token unchanged and the default base URL `https://api.hetzner.cloud/v1` |
| NetworkActions.ListAll | src/networks/actions.ts:20-37 | GET with no options; pairs are `Pairs(OnePerKey, params)` (undefined entries skipped, one pair per key, arrays comma-joined by `toString()`); the endpoint is exactly `/networks/actions` with no query when no pair is built and with the encoded pairs otherwise; a `toString()` TypeError becomes the error result |
| NetworkActions.Get | src/networks/actions.ts:43-47 | GET (no options) on the endpoint, which is exactly `/networks/actions/{actionId}` with no query |
| NetworkActions.ListForNetwork | src/networks/actions.ts:54-72 | GET with no options; pairs are `Pairs(OnePerKey, params)` (undefined entries skipped, one pair per key, arrays comma-joined by `toString()`); the endpoint is exactly `/networks/{networkId}/actions` with no query when no pair is built and with the encoded pairs otherwise; a `toString()` TypeError becomes the error result |
| NetworkActions.GetForNetwork | src/networks/actions.ts:79-84 | GET (no options) on the endpoint, which is exactly `/networks/{networkId}/actions/{actionId}` with no query |
| NetworkActions.AddRoute | src/networks/actions.ts:91-99 | POST to `/networks/{networkId}/actions/add_route` (exactly, no query) with the params object as body, unchanged |
| NetworkActions.DeleteRoute | src/networks/actions.ts:106-114 | POST to `/networks/{networkId}/actions/delete_route` (exactly, no query) with the params object as body, unchanged |
| NetworkActions.AddSubnet | src/networks/actions.ts:121-129 | POST to `/networks/{networkId}/actions/add_subnet` (exactly, no query) with the params object as body, unchanged |
| NetworkActions.DeleteSubnet | src/networks/actions.ts:136-144 | POST to `/networks/{networkId}/actions/delete_subnet` (exactly, no query) with the params object as body, unchanged |
| NetworkActions.ChangeIPRange | src/networks/actions.ts:151-159 | POST to `/networks/{networkId}/actions/change_ip_range` (exactly, no query) with the params object as body, unchanged |
| NetworkActions.ChangeProtection | src/networks/actions.ts:166-174 | POST to `/networks/{networkId}/actions/change_protection` (exactly, no query) with the params object as body, unchanged |
| Certificates.Certificates.Actions | src/security/certificates.ts:108-113 | first access stores a fresh `CertificateActions` built with the parent's token; later accesses return the stored object unchanged |
| Certificates.Certificates.constructor | src/base.ts:4-9 | token stored unchanged, default base URL, no accessor cached yet |
| Certificates.GetAll | src/security/certificates.ts:26-45 | GET with no options; pairs are `Pairs(OnePerKey, params)` (undefined entries skipped, one pair per key, arrays comma-joined by `toString()`); the endpoint is exactly `/certificates` with no query when no pair is built and with the encoded pairs otherwise; a `toString()` TypeError becomes the error result |
| Certificates.Get | src/security/certificates.ts:51-58 | GET (no options) on the endpoint, which is exactly `/certificates/{id}` with no query |
| Certificates.Create | src/security/certificates.ts:64-74 | POST to `/certificates` (exactly, no query) with the params object as body, unchanged |
| Certificates.Update | src/security/certificates.ts:81-92 | PUT on `/certificates/{id}` (exactly, no query) with the params object as body, unchanged |
| Certificates.Delete | src/security/certificates.ts:98-106 | DELETE with no body on the endpoint, which is exactly `/certificates/{id}` with no query |
| SSHKeys.GetAll | src/security/security.ts:33-52 | GET with no options; pairs are `Pairs(OnePerKey, params)` (undefined entries skipped, one pair per key, arrays comma-joined by `toString()`); the endpoint is exactly `/ssh_keys` with no query when no pair is built and with the encoded pairs otherwise; a `toString()` TypeError becomes the error result |
| SSHKeys.Get | src/security/security.ts:58-65 | GET (no options) on the endpoint, which is exactly `/ssh_keys/{id}` with no query |
| SSHKeys.Create | src/security/security.ts:71-81 | POST to `/ssh_keys` (exactly, no query) with the params object as body, unchanged |
| SSHKeys.Update | src/security/security.ts:88-99 | PUT on `/ssh_keys/{id}` (exactly, no query) with the params object as body, unchanged |
| SSHKeys.Delete | src/security/security.ts:105-113 | DELETE with no body on the endpoint, which is exactly `/ssh_keys/{id}` with no query |
| Locations.List | src/locations/locations.ts:24-40 | GET with no options; pairs are `Pairs(OnePerKey, params)` (undefined entries skipped, one pair per key, arrays comma-joined by `toString()`); the endpoint is exactly `/locations` with no query when no pair is built and with the encoded pairs otherwise; a `toString()` TypeError becomes the error result |
| Locations.Get | src/locations/locations.ts:46-50 | GET (no options) on the endpoint, which is exactly `/locations/{id}` with no query |
| Datacenters.List | src/locations/locations.ts:58-74 | GET with no options; pairs are `Pairs(OnePerKey, params)` (undefined entries skipped, one pair per key, arrays comma-joined by `toString()`); the endpoint is exactly `/datacenters` with no query when no pair is built and with the encoded pairs otherwise; a `toString()` TypeError becomes the error result |
| Datacenters.Get | src/locations/locations.ts:80-84 | GET (no options) on the endpoint, which is exactly `/datacenters/{id}` with no query |
| Decimal.Decimal | src/servers/actions/actions.ts:51 | `${id}` of an integer is non-empty, starts with a digit or `-`, and holds only digits and `-` (so it can never contain `/` or `?`) |
| Decimal.DigitsRoundTrip | src/servers/actions/actions.ts:51 | reading back the digits written for a natural number gives that number |
| Decimal.DecimalRoundTrip | src/servers/actions/actions.ts:51 | reading back `${id}` gives `id`, for negative ids too |
| Decimal.DecimalInjective | src/servers/actions/actions.ts:585-587 | two ids give the same interpolated text if and only if they are equal |
| JsValue.ToString | src/servers/actions/actions.ts:28-30 | `value.toString()` throws a TypeError exactly when the value is undefined or null; otherwise it gives the value's text; a string gives itself |
| FormUrlEncoded.Escape | src/servers/actions/actions.ts:35 | an escaped name or value never contains `?`, `&` or `=` and is at least as long as the original |
| FormUrlEncoded.SerializePair | src/servers/actions/actions.ts:35 | one serialized pair contains `=` but no `&` and no `?` |
| FormUrlEncoded.Encode | src/servers/actions/actions.ts:35 | the query string is empty if and only if there are no pairs, and never contains `?` |
| FormUrlEncoded.EncodeIsJoin | src/servers/actions/actions.ts:35 | the query string is the pairs' `name=value` fields joined by `&`, in order |
| FormUrlEncoded.QueryFields | src/servers/actions/actions.ts:35-37 | for a non-empty pair list, cutting the query at `&` gives one field per pair, and cutting the k-th field at `=` gives the k-th escaped name and value |
| Endpoint.SplitJoin | src/servers/servers.ts:145 | fields free of the separator are read back exactly by cutting their join at the separator |
| Endpoint.JoinSnoc | src/servers/servers.ts:145 | joining one more field adds the separator and the field at the end |
| Endpoint.JoinSplit | src/servers/servers.ts:145 | joining the pieces of a split with the same separator gives the original text back, for every text |
| Endpoint.RouteIsJoin | src/base.ts:15 | a non-empty route is `/` followed by its segments joined by `/` |
| Endpoint.ParseInverse | src/base.ts:15 | an endpoint that parses to some segments and query is exactly the route of those segments followed by `?query` when there is one; so no endpoint without the leading `/` meets a route contract |
| Endpoint.RouteHasNoQuestion | src/servers/actions/actions.ts:76 | a route built from segments without `/` and `?` contains no `?` |
| Endpoint.SegmentsOfRoute | src/servers/actions/actions.ts:76 | cutting a route at `/` gives back exactly its segments |
| Endpoint.RouteParses | src/servers/actions/actions.ts:51 | a route is exactly its segments with no query |
| Endpoint.RouteWithQueryParses | src/servers/actions/actions.ts:76 | a route followed by `?` and a query without `?` is exactly its segments and that query |
| QueryPairs.Single | src/servers/actions/actions.ts:70 | one `append(key, value.toString())` throws exactly on undefined or null and otherwise adds the single pair `(key, text of value)` |
| QueryPairs.EachElementFails | src/servers/actions/actions.ts:28 | appending each element throws exactly when some element is undefined or null; otherwise it gives one pair per element under the same key, in element order |
| QueryPairs.ContributionFails | src/servers/actions/actions.ts:25-33 | one entry's contribution throws exactly when the variant would call `toString()` on undefined or null |
| QueryPairs.PairsAppend | src/servers/actions/actions.ts:25-33 | building the pairs for `a + b` is building those for `a`, then those for `b` (entry order is kept; the first throw wins) |
| QueryPairs.PairsFail | src/servers/actions/actions.ts:25-33 | building throws if and only if some entry throws |
| QueryPairs.OnePerKeyJoinsArrays | src/servers/actions/actions.ts:66-73 | the one-pair-per-key variant renders an array as one pair whose value is the comma-joined text |
| QueryPairs.ExpandingRepeatsKey | src/servers/actions/actions.ts:27-28 | the expanding variants turn an array into one pair per element, all under the same key, in element order |
| QueryPairs.EmptyArray | src/security/actions.ts:49-50 | an empty array gives no pairs in the expanding variants and one pair with an empty value in the others |
| QueryPairs.ArrayFirstIsExpanding | src/security/actions.ts:48-54 | testing for an array before testing for undefined builds exactly the same pairs as the expanding variant, for every filter object |
| QueryPairs.ExpandingWithoutArrays | src/servers/actions/actions.ts:23-34 | without array values, the expanding variant and the one-pair-per-key variant build the same pairs |
| QueryPairs.SkippedEntry | src/servers/placement-groups/placement-group.ts:55 | an undefined entry (and, in the skip-empty variant, a null or `""` entry) changes nothing wherever it stands |
| QueryPairs.OnePairPerKeptEntry | src/servers/actions/actions.ts:66-73 | the non-expanding variants give exactly one pair per kept entry, in entry order, each the key and the value's text |
| QueryPairs.PresentNeverThrows | src/servers/placement-groups/placement-group.ts:54-58 | the skip-empty variant never throws |
| QueryPairs.PresentKeepsFalseAndZero | src/servers/images/images.ts:44-45 | the skip-empty variant keeps `false` and `0`, encoded as `"false"` and `"0"` |
| QueryBuilder.SearchParams.constructor | src/servers/actions/actions.ts:23 | a new `URLSearchParams` holds no pairs |
| QueryBuilder.SearchParams.Append | src/servers/actions/actions.ts:30 | `append` adds the pair at the end and keeps the earlier pairs |
| QueryBuilder.SearchParams.Serialized | src/servers/actions/actions.ts:35 | `toString()` is empty if and only if no pair was appended, and has no `?` |
| QueryBuilder.AppendEach | src/servers/actions/actions.ts:28 | the inner `forEach` appends one pair per element in order, or stops at the first undefined or null element with a TypeError |
| QueryBuilder.Build | src/servers/actions/actions.ts:23-34 | the outer `forEach` produces exactly the variant's specified pairs `Pairs(variant, entries)`, or the TypeError that the specification predicts |
| Base.EffectiveMethod | src/base.ts:13-16 | with no method in the options the request is a GET; otherwise it uses the caller's method |
| Base.OutgoingHeaders | src/base.ts:17-21 | `Authorization` is `Bearer ` + token and `Content-Type` is `application/json`; the header names are the caller's plus those two; every other caller header is kept unchanged |
| Base.Settle | src/base.ts:23-33 | the call rejects exactly when the status is not 204 and the body is not JSON; otherwise success holds exactly for a 2xx status, and the payload is null for 204 and the parsed body otherwise |
| Base.Request | src/base.ts:11-34 | the request target is the base URL followed by the endpoint, with nothing added; method and body pass through; the headers are the merged ones; the outcome is the settled response |
| Base.NoContentSucceedsWithNull | src/firewalls/firewalls.test.ts:147-149 | a 204 always succeeds with a null payload, whatever the body |
| Base.ErrorStatusKeepsBody | src/base.ts:24-29 | a status outside 200-299 with a JSON body fails and carries that body |
| Base.FixedHeadersWin | src/base.ts:17-21 | the caller cannot override `Authorization` or `Content-Type` |
| Base.OutgoingHeadersIdempotent | src/base.ts:17-21 | merging the fixed headers into already merged headers changes nothing |
| Calls.Id | src/servers/actions/actions.ts:51 | an interpolated id holds no `/` or `?` and starts with a digit or `-` |
| Calls.Get | src/servers/actions/actions.ts:51 | a GET with no options on the endpoint, which is exactly the route of the segments with no query |
| Calls.GetWithQuery | src/servers/servers.ts:144-146 | a GET with no options on the endpoint, which is exactly the route of the segments and the given query |
| Calls.Post | src/servers/servers.ts:121-124 | a POST with the given body (or none) and no headers, on the endpoint, which is exactly the route of the segments with no query |
| Calls.Put | src/volumes/volumes.ts:81-84 | a PUT with the params object as body, on the endpoint, which is exactly the route of the segments with no query |
| Calls.Delete | src/servers/servers.ts:130-132 | a DELETE with no body, on the endpoint, which is exactly the route of the segments with no query |
| Calls.List | src/servers/actions/actions.ts:35-38 | a list call fails exactly when building its pairs threw; otherwise a GET whose endpoint is exactly the route with no query when there are no pairs and with the encoded pairs otherwise |
| Calls.ListAlways | src/servers/placement-groups/placement-group.ts:61-63 | like `List`, but the endpoint always carries a query part, empty when there are no pairs |
| Calls.AlwaysQuestionMark | src/servers/placement-groups/placement-group.ts:61-63 | the two path shapes agree if and only if there is at least one pair; with none, one is the bare route and the other the route followed by `?` |
| ServerActions.GetAll | src/servers/actions/actions.ts:17-39 | GET with no options; pairs are `Pairs(Expanding, params)`; the endpoint is exactly `/servers/actions` with no query when there are no pairs and with the encoded pairs otherwise; a TypeError becomes the error result |
| ServerActions.Get | src/servers/actions/actions.ts:45-52 | a GET on the endpoint, which is exactly `/servers/actions/{id}` |
| ServerActions.GetAllByServer | src/servers/actions/actions.ts:59-78 | GET with no options; pairs are `Pairs(OnePerKey, params)`; the endpoint is exactly `/servers/{serverId}/actions`, with a query only when there is a pair |
| ServerActions.Body | src/servers/actions/actions.ts:85-521 | exactly the thirteen commands that pass only `method: "POST"` (rescue among them) send no body; the others send exactly their JSON fields in source order, such as `{placement_group}` and `{type, upgrade_disk}` |
| ServerActions.Post | src/servers/actions/actions.ts:85-576 | every command is a POST to the endpoint, which is exactly `/servers/{serverId}/actions/{command}` with the command's body |
| ServerActions.GetActionForServer | src/servers/actions/actions.ts:578-588 | a GET on the endpoint, which is exactly `/servers/{serverId}/actions/{actionId}` |
| ServerActions.CommandIsNotActionLookup | src/servers/actions/actions.ts:578-588 | no command endpoint equals an action-lookup endpoint |
| ServerActions.CommandEndpoints | src/servers/actions/actions.ts:85-576 | two command endpoints are equal if and only if they name the same server and the same command |
| ServerActions.EnableRescueIgnoresArguments | src/servers/actions/actions.ts:386-400 | enabling rescue mode sends no body, so its `type` and `sshKeys` arguments change nothing |
| Servers.GetMetrics | src/servers/servers.ts:135-147 | a GET with no options on the endpoint, which is exactly `/servers/{id}/metrics` with the query `type=…&start=…&end=…&step=…`, arguments written verbatim |
| Servers.StepTextHasNoAmpersand | src/servers/servers.ts:140 | the text for `step` never contains `&` |
| Servers.MetricsFields | src/servers/servers.ts:144-146 | when type, start and end hold no `&`, the metrics query cuts into exactly the four fields `type=`, `start=`, `end=`, `step=`, and an omitted step is written `step=undefined` |
| Servers.AmpersandInStartSplitsIt | src/servers/servers.ts:144-146 | an `&` inside `start` is not encoded, so the query then cuts into five fields |
| FirewallActions.GetIsGetFirewallAction | src/firewalls/actions.ts:143-150 | `get` and `getFirewallAction` build the identical call |
| FloatingIPs.SameActionsInstance | src/floating-ips/floating-ips.test.ts:151-156 | two consecutive `actions` accesses return the same object, built with the parent's token |

## Left out

- The network: `fetch` and `res.json()` are not modelled. The status and the parsed body (or the fact that it is not JSON) are inputs of `Base.Request`.
- `JSON.stringify` of request bodies is not modelled: a body is the JavaScript value handed to it, so dropping `undefined` fields is not captured.
- Promises and `async` scheduling are not modelled; each call is independent.
- Header names are compared exactly; the case-insensitivity of HTTP header names is not modelled, and neither are caller headers given as a `Headers` object or as an array.
- Of `RequestInit`, only method, headers and body are modelled; every other field is passed through by the source and carries no logic.
- Numbers are integers. Floating-point filter values and the exponent notation of `${n}` for very large numbers are not modelled.
- Percent-encoding is the concrete WHATWG serializer rather than an uninterpreted function, so its properties (no `?`, `&` or `=` inside a field; empty exactly for no pairs) are proved for every string the model can express.
- FormUrlEncoded.Encode, FormUrlEncoded.Escape and JsValue.ToString: strings are Dafny strings, sequences of Unicode scalar values, while JavaScript strings are UTF-16 code units and may hold lone surrogates; the replacement of a lone surrogate by U+FFFD (`%EF%BF%BD`) when `URLSearchParams` converts its arguments is not modelled, because such a string cannot be expressed.
- `src/index.ts` only constructs the accessors; `src/billing/billing.ts` and `src/actions/actions.ts` forward a fixed or single-id path to `request`. They are not part of this model.
- Type declaration files, the tests and the build configuration carry no behaviour and are not part of this model. The tests' round trips against the live API are remote behaviour.
