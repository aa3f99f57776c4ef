/**
 * The two functions of the go-domain-util package that the crawler calls.
 * Their public-suffix logic is not part of this model, so they are carried
 * as an uninterpreted pair of functions: everything proved about the crawler
 * holds whatever `Domain` and `HasSubdomain` compute.
 */
module DomainUtil {

  /** `Domain` is empty for a relative or local path. */
  datatype Util = Util(Domain: string -> string, HasSubdomain: string -> bool)
}
