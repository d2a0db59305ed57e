/** The versions that every manifest, marker and selected input must carry. */
module Versions {
  const MANIFEST_VERSION := "1.1.0"
  const SCHEMA_VERSION := "1.0.0"
}
